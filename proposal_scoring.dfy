/**
 * Proposal scoring (proposal.service.js, scoreProposal and the four calculate*
 * functions). Four piecewise-linear sub-scores over exact reals, combined with
 * fixed weights and rounded the way Math.round rounds.
 */
module ProposalScoring {
  import opened Wrappers
  import opened Text
  import opened Model

  /** Math.round: the nearest integer, halves rounded up (also for negative numbers). */
  function Round(x: real): (r: int)
    ensures r as real - 0.5 <= x < r as real + 0.5
  {
    (x + 0.5).Floor
  }

  // --------------------------------------------------------------- price

  // Facts about real division that the proofs below use.

  lemma RatioBelowOne(p: real, b: real)
    requires 0.0 <= p < b
    ensures 0.0 <= p / b < 1.0
  {
  }

  lemma DivSub(a: real, p: real, c: real)
    requires c != 0.0
    ensures (a - p) / c == a / c - p / c
  {
  }

  lemma DivSelf(c: real)
    requires c != 0.0
    ensures c / c == 1.0
  {
  }

  lemma DivMonotone(x: real, y: real, b: real)
    requires 0.0 < b && x < y
    ensures x / b < y / b
  {
  }

  /**
   * The price score exactly as line 233 computes it: below budget the score is
   * 100 - ((budget - price) / budget) * 30, which is 70 at a price of 0 and
   * climbs towards 100 as the price climbs towards the budget.
   */
  function PriceScoreAsWritten(price: real, budget: real): (r: real)
    requires price >= budget || budget != 0.0
    ensures price > budget ==> r == 30.0
    ensures price == budget ==> r == 70.0
    ensures 0.0 <= price < budget ==> 70.0 <= r < 100.0
    ensures 0.0 == price < budget ==> r == 70.0
  {
    if price > budget then 30.0
    else if price == budget then 70.0
    else
      DivSub(budget, price, budget);
      DivSelf(budget);
      if 0.0 <= price then
        RatioBelowOne(price, budget);
        100.0 - (budget - price) / budget * 30.0
      else
        100.0 - (budget - price) / budget * 30.0
  }

  /** As written, of two offers under budget the dearer one gets the higher price score. */
  lemma AsWrittenRewardsHigherPrice(cheaper: real, dearer: real, budget: real)
    requires 0.0 <= cheaper < dearer < budget
    ensures PriceScoreAsWritten(cheaper, budget) < PriceScoreAsWritten(dearer, budget)
  {
    DivSub(budget, cheaper, budget);
    DivSub(budget, dearer, budget);
    DivSelf(budget);
    DivMonotone(cheaper, dearer, budget);
  }

  /** A concrete pair: budget 100, a price of 10 scores 73, a price of 90 scores 97. */
  lemma AsWrittenCounterexample()
    ensures PriceScoreAsWritten(10.0, 100.0) == 73.0
    ensures PriceScoreAsWritten(90.0, 100.0) == 97.0
    ensures PriceScoreAsWritten(0.0, 100.0) < PriceScoreAsWritten(99.0, 100.0)
  {
  }

  /**
   * The price score as the comments at lines 188 and 233 describe it: 30 over
   * budget, 70 at budget, and below budget 70 plus 30 times the share saved,
   * which is 100 - (price / budget) * 30. The model scores proposals with this one.
   */
  function PriceScore(price: real, budget: real): (r: real)
    requires price >= budget || budget != 0.0
    ensures price > budget ==> r == 30.0
    ensures price == budget ==> r == 70.0
    ensures 0.0 <= price < budget ==> 70.0 < r <= 100.0
    ensures 0.0 == price < budget ==> r == 100.0
  {
    if price > budget then 30.0
    else if price == budget then 70.0
    else if 0.0 <= price then
      RatioBelowOne(price, budget);
      100.0 - price / budget * 30.0
    else
      100.0 - price / budget * 30.0
  }

  /** Under budget the corrected score is 70 plus 30 times the fraction of the budget saved. */
  lemma PriceScoreIsSavingsShare(price: real, budget: real)
    requires 0.0 < budget && price < budget
    ensures PriceScore(price, budget) == 70.0 + (budget - price) / budget * 30.0
  {
    DivSub(budget, price, budget);
    DivSelf(budget);
  }

  /** The corrected score strictly rewards a lower price, up to and including the budget. */
  lemma PriceScoreRewardsSavings(cheaper: real, dearer: real, budget: real)
    requires 0.0 < budget && cheaper < dearer <= budget
    ensures PriceScore(dearer, budget) < PriceScore(cheaper, budget)
  {
    DivMonotone(cheaper, dearer, budget);
    DivSelf(budget);
  }

  // ------------------------------------------------------------ delivery

  /** `parseInt(leadTime) || 30`: the leading integer of the lead-time text, 30 when there is none or it is 0. */
  function LeadTimeDays(leadTime: Option<string>): (d: int)
    ensures d != 0
  {
    if leadTime.None? then 30
    else match ParseInt(leadTime.value)
      case Some(n) => if n == 0 then 30 else n
      case None => 30
  }

  /** A lead time written as a number of days followed by other text is read as that number. */
  lemma LeadTimeReadsLeadingNumber(n: nat, rest: string)
    requires n != 0
    requires |rest| > 0 ==> !IsDigit(rest[0])
    ensures LeadTimeDays(Some(NatToString(n) + rest)) == n
  {
    ParseIntOfRendered(n, rest);
  }

  /** The unit is ignored: "3 weeks" counts as 3 days. */
  lemma LeadTimeIgnoresUnit()
    ensures LeadTimeDays(Some("3 weeks")) == 3
  {
    assert NatToString(3) + " weeks" == "3 weeks";
    LeadTimeReadsLeadingNumber(3, " weeks");
  }

  /** `deliveryTerms.leadTimeDays || 30`. */
  function RequiredDays(terms: DeliveryTerms): (d: real)
    ensures d != 0.0
    ensures terms.leadTimeDays.Some? && terms.leadTimeDays.value != 0 ==> d == terms.leadTimeDays.value as real
    ensures terms.leadTimeDays.None? || terms.leadTimeDays.value == 0 ==> d == 30.0
  {
    match terms.leadTimeDays
    case Some(n) => if n == 0 then 30.0 else n as real
    case None => 30.0
  }

  /**
   * Delivery score for a lead time against the required lead time: 100 when on
   * time, 30 when more than half as late again, otherwise 100 - 70 * (lateness / required).
   */
  function DeliveryScore(lead: int, required: real): (r: real)
    requires required != 0.0
    ensures lead as real <= required ==> r == 100.0
    ensures required < lead as real && lead as real > required * 1.5 ==> r == 30.0
    ensures required < lead as real <= required * 1.5 ==> 65.0 <= r < 100.0
    ensures r == 30.0 || 65.0 <= r <= 100.0
  {
    var l := lead as real;
    if l <= required then 100.0
    else if l > required * 1.5 then 30.0
    else
      LatenessBelowHalf(l, required);
      100.0 - (l - required) / required * 70.0
  }

  lemma LatenessBelowHalf(l: real, required: real)
    requires required < l <= required * 1.5
    ensures required > 0.0
    ensures 0.0 < (l - required) / required <= 0.5
  {
  }

  /** A later delivery never scores higher. */
  lemma DeliveryScoreAntitone(earlier: int, later: int, required: real)
    requires required != 0.0 && earlier <= later
    ensures DeliveryScore(later, required) <= DeliveryScore(earlier, required)
  {
    var e, l := earlier as real, later as real;
    if required < e && e < l && l <= required * 1.5 {
      DivMonotone(e - required, l - required, required);
    }
  }

  /** calculateDeliveryScore: the lead-time text of the proposal against the RFP's delivery terms. */
  function CalculateDeliveryScore(details: DeliveryDetails, terms: DeliveryTerms): (r: real)
    ensures LeadTimeDays(details.leadTime) as real <= RequiredDays(terms) ==> r == 100.0
    ensures var (lead, required) := (LeadTimeDays(details.leadTime) as real, RequiredDays(terms));
      required < lead && lead > required * 1.5 ==> r == 30.0
    ensures r == 30.0 || 65.0 <= r <= 100.0
  {
    DeliveryScore(LeadTimeDays(details.leadTime), RequiredDays(terms))
  }

  // ---------------------------------------------------------- compliance

  /** matched / total * 100, with no cap at 100. */
  function ComplianceScore(matched: nat, total: nat): (r: real)
    requires total > 0
    ensures r >= 0.0
    ensures matched <= total ==> r <= 100.0
    ensures matched == total ==> r == 100.0
    ensures matched > total ==> r > 100.0
  {
    RatioAgainstOne(matched as real, total as real);
    matched as real / total as real * 100.0
  }

  lemma RatioAgainstOne(m: real, t: real)
    requires 0.0 <= m && 0.0 < t
    ensures 0.0 <= m / t
    ensures m <= t ==> m / t <= 1.0
    ensures m == t ==> m / t == 1.0
    ensures m > t ==> m / t > 1.0
  {
  }

  lemma ComplianceExample()
    ensures ComplianceScore(3, 4) == 75.0
    ensures ComplianceScore(5, 4) == 125.0
  {
  }

  /** calculateComplianceScore: matched specs over the number of RFP items. */
  function CalculateComplianceScore(compliance: Compliance, items: seq<Item>): (r: real)
    requires compliance.specsMatched.Some? && |items| > 0
    ensures r >= 0.0
    ensures |compliance.specsMatched.value| <= |items| ==> r <= 100.0
    ensures |compliance.specsMatched.value| == |items| ==> r == 100.0
    ensures |compliance.specsMatched.value| > |items| ==> r > 100.0
  {
    ComplianceScore(|compliance.specsMatched.value|, |items|)
  }

  // ------------------------------------------------------------- support

  /** `if (terms.sla)`: an SLA text that is present and not empty. */
  predicate HasSla(terms: Terms) {
    terms.sla.Some? && terms.sla.value != ""
  }

  /** calculateSupportScore: 50, +30 for a warranty mentioning "24", +20 for an SLA, at most 100. */
  function SupportScore(terms: Terms): (r: real)
    requires terms.warranty.Some?
    ensures r == 50.0 || r == 70.0 || r == 80.0 || r == 100.0
    ensures r >= 80.0 <==> Contains(terms.warranty.value, "24")
    ensures (r == 70.0 || r == 100.0) <==> HasSla(terms)
  {
    var w := terms.warranty.value;
    var score := 50.0;
    var score := if Contains(w, "24") || Contains(w, "24/7") then score + 30.0 else score;
    var score := if HasSla(terms) then score + 20.0 else score;
    assert Contains(w, "24/7") ==> Contains(w, "24") by {
      if Contains(w, "24/7") {
        assert "24/7" == "24" + "/7";
        ContainsPrefixOf(w, "24", "/7");
      }
    }
    if score < 100.0 then score else 100.0
  }

  // ------------------------------------------------------------- overall

  /** The fixed weights 0.30 / 0.25 / 0.35 / 0.10. */
  function Weighted(price: real, delivery: real, compliance: real, support: real): real {
    price * 0.3 + delivery * 0.25 + compliance * 0.35 + support * 0.1
  }

  /** The weights sum to one, so sub-scores in [0, 100] give an overall score in [0, 100]. */
  lemma OverallInRange(price: real, delivery: real, compliance: real, support: real)
    requires 0.0 <= price <= 100.0 && 0.0 <= delivery <= 100.0
    requires 0.0 <= compliance <= 100.0 && 0.0 <= support <= 100.0
    ensures 0 <= Round(Weighted(price, delivery, compliance, support)) <= 100
  {
  }

  /** Sub-scores (80, 100, 60, 100) combine to 80. */
  lemma OverallExample()
    ensures Round(Weighted(80.0, 100.0, 60.0, 100.0)) == 80
  {
  }

  /** Rounding the sub-scores first would give a different overall score. */
  lemma RoundingOrderMatters()
    ensures Round(Weighted(70.5, 65.5, 62.5, 50.0)) == 64
    ensures Round(Weighted(Round(70.5) as real, Round(65.5) as real, Round(62.5) as real, 50.0)) == 65
  {
  }

  /** What scoreProposal needs so that every sub-score is a finite number and no field access throws. */
  predicate Scorable(spec: Specifications, data: ParsedProposal) {
    && spec.budget.Some? && spec.budget.value.total.Some?
    && data.pricing.totalPrice.Some?
    && (data.pricing.totalPrice.value >= spec.budget.value.total.value || spec.budget.value.total.value != 0.0)
    && spec.deliveryTerms.Some?
    && spec.items.Some? && |spec.items.value| > 0
    && data.compliance.specsMatched.Some?
    && data.terms.warranty.Some?
  }

  // The four unrounded sub-scores of a proposal against an RFP.

  function PriceOf(spec: Specifications, data: ParsedProposal): real
    requires Scorable(spec, data)
  {
    PriceScore(data.pricing.totalPrice.value, spec.budget.value.total.value)
  }

  function DeliveryOf(spec: Specifications, data: ParsedProposal): real
    requires Scorable(spec, data)
  {
    CalculateDeliveryScore(data.deliveryDetails, spec.deliveryTerms.value)
  }

  function ComplianceOf(spec: Specifications, data: ParsedProposal): real
    requires Scorable(spec, data)
  {
    CalculateComplianceScore(data.compliance, spec.items.value)
  }

  function SupportOf(spec: Specifications, data: ParsedProposal): real
    requires Scorable(spec, data)
  {
    SupportScore(data.terms)
  }

  /** `Price: p/100 | Delivery: d/100 | Compliance: c/100 | Support: s/100`. */
  function Reasoning(price: int, delivery: int, compliance: int, support: int): string {
    "Price: " + IntToString(price) + "/100 | Delivery: " + IntToString(delivery)
    + "/100 | Compliance: " + IntToString(compliance) + "/100 | Support: " + IntToString(support) + "/100"
  }

  /** Nearness of an integer to a real: the integer Round picks. */
  ghost predicate RoundsTo(x: real, n: int) {
    n as real - 0.5 <= x < n as real + 0.5
  }

  /**
   * The record built from four unrounded sub-scores: each reported sub-score is
   * its own rounding, and the overall score is the rounding of their weighted sum.
   */
  function RecordScores(p: real, d: real, c: real, s: real): (r: ScoreRecord)
    ensures RoundsTo(p, r.priceScore) && RoundsTo(d, r.deliveryScore)
    ensures RoundsTo(c, r.complianceScore) && RoundsTo(s, r.supportScore)
    ensures RoundsTo(Weighted(p, d, c, s), r.overall)
    ensures r.reasoning == Reasoning(r.priceScore, r.deliveryScore, r.complianceScore, r.supportScore)
  {
    ScoreRecord(Round(p), Round(d), Round(c), Round(s), Round(Weighted(p, d, c, s)),
                Reasoning(Round(p), Round(d), Round(c), Round(s)))
  }

  /**
   * scoreProposal: every reported sub-score is its own sub-score rounded, and the
   * overall score is the weighted sum of the UNROUNDED sub-scores, rounded.
   */
  function ScoreProposal(spec: Specifications, data: ParsedProposal): (r: ScoreRecord)
    requires Scorable(spec, data)
    ensures RoundsTo(PriceOf(spec, data), r.priceScore)
    ensures RoundsTo(DeliveryOf(spec, data), r.deliveryScore)
    ensures RoundsTo(ComplianceOf(spec, data), r.complianceScore)
    ensures r.supportScore as real == SupportOf(spec, data)
    ensures RoundsTo(Weighted(PriceOf(spec, data), DeliveryOf(spec, data), ComplianceOf(spec, data), SupportOf(spec, data)), r.overall)
    ensures r.reasoning == Reasoning(r.priceScore, r.deliveryScore, r.complianceScore, r.supportScore)
  {
    var r := RecordScores(PriceOf(spec, data), DeliveryOf(spec, data), ComplianceOf(spec, data), SupportOf(spec, data));
    SupportRoundsToItself(SupportOf(spec, data), r.supportScore);
    r
  }

  /** A support score is a whole number, so rounding reports it unchanged. */
  lemma SupportRoundsToItself(s: real, n: int)
    requires s == 50.0 || s == 70.0 || s == 80.0 || s == 100.0
    requires RoundsTo(s, n)
    ensures n as real == s
  {
    if s == 50.0 {
      assert 49 < n < 51;
    } else if s == 70.0 {
      assert 69 < n < 71;
    } else if s == 80.0 {
      assert 79 < n < 81;
    } else {
      assert 99 < n < 101;
    }
  }

  /**
   * Ranges of a score record: price 30..100 for a non-negative price, delivery
   * 30..100, support one of 50/70/80/100, and an overall score in 0..100 for a
   * non-negative price and no more specs matched than the RFP has items.
   */
  lemma ScoreProposalRanges(spec: Specifications, data: ParsedProposal)
    requires Scorable(spec, data)
    ensures var r := ScoreProposal(spec, data);
      && (data.pricing.totalPrice.value >= 0.0 ==> 30 <= r.priceScore <= 100)
      && 30 <= r.deliveryScore <= 100
      && r.supportScore in {50, 70, 80, 100}
      && (data.pricing.totalPrice.value >= 0.0 && |data.compliance.specsMatched.value| <= |spec.items.value|
          ==> 0 <= r.overall <= 100)
  {
    var r := ScoreProposal(spec, data);
    var price, budget := data.pricing.totalPrice.value, spec.budget.value.total.value;
    var p, d, c, s := PriceOf(spec, data), DeliveryOf(spec, data), ComplianceOf(spec, data), SupportOf(spec, data);
    assert price >= 0.0 ==> 30.0 <= p <= 100.0;
    assert 30.0 <= d <= 100.0;
    assert s == 50.0 || s == 70.0 || s == 80.0 || s == 100.0;
    if price >= 0.0 && |data.compliance.specsMatched.value| <= |spec.items.value| {
      assert 0.0 <= c <= 100.0;
      OverallInRange(p, d, c, s);
    }
  }

  // ----------------------------------------------------- as written, in full

  /** The price sub-score with line 233's formula. */
  function PriceAsWrittenOf(spec: Specifications, data: ParsedProposal): real
    requires Scorable(spec, data)
  {
    PriceScoreAsWritten(data.pricing.totalPrice.value, spec.budget.value.total.value)
  }

  /** scoreProposal as written: the same record, with line 233's price sub-score. */
  function ScoreProposalAsWritten(spec: Specifications, data: ParsedProposal): (r: ScoreRecord)
    requires Scorable(spec, data)
    ensures RoundsTo(PriceAsWrittenOf(spec, data), r.priceScore)
    ensures RoundsTo(DeliveryOf(spec, data), r.deliveryScore)
    ensures RoundsTo(ComplianceOf(spec, data), r.complianceScore)
    ensures RoundsTo(Weighted(PriceAsWrittenOf(spec, data), DeliveryOf(spec, data), ComplianceOf(spec, data), SupportOf(spec, data)), r.overall)
    ensures r.reasoning == Reasoning(r.priceScore, r.deliveryScore, r.complianceScore, r.supportScore)
  {
    RecordScores(PriceAsWrittenOf(spec, data), DeliveryOf(spec, data), ComplianceOf(spec, data), SupportOf(spec, data))
  }

  /** Under budget the two price formulas are mirror images about 85. */
  lemma PriceScoresMirror(price: real, budget: real)
    requires price < budget && budget != 0.0
    ensures PriceScoreAsWritten(price, budget) + PriceScore(price, budget) == 170.0
  {
    DivSub(budget, price, budget);
    DivSelf(budget);
  }

  /**
   * The two records differ only through the price: delivery, compliance and
   * support agree; at or over budget the price scores agree too; under budget
   * the two unrounded price scores add up to 170, each the other mirrored about 85.
   */
  lemma AsWrittenDiffersOnlyInPrice(spec: Specifications, data: ParsedProposal)
    requires Scorable(spec, data)
    ensures var (w, c) := (ScoreProposalAsWritten(spec, data), ScoreProposal(spec, data));
      && w.deliveryScore == c.deliveryScore && w.complianceScore == c.complianceScore
      && w.supportScore == c.supportScore
      && (data.pricing.totalPrice.value >= spec.budget.value.total.value ==> w == c)
    ensures data.pricing.totalPrice.value < spec.budget.value.total.value ==>
      PriceAsWrittenOf(spec, data) + PriceOf(spec, data) == 170.0
  {
    var price, budget := data.pricing.totalPrice.value, spec.budget.value.total.value;
    if price < budget {
      PriceScoresMirror(price, budget);
    } else {
      assert PriceAsWrittenOf(spec, data) == PriceOf(spec, data);
    }
  }

  /**
   * Ranges of the record as written: price 30..100 and overall 0..100 under
   * the same conditions as for the corrected record.
   */
  lemma ScoreProposalAsWrittenRanges(spec: Specifications, data: ParsedProposal)
    requires Scorable(spec, data)
    ensures var r := ScoreProposalAsWritten(spec, data);
      && (data.pricing.totalPrice.value >= 0.0 ==> 30 <= r.priceScore <= 100)
      && (data.pricing.totalPrice.value >= 0.0 && |data.compliance.specsMatched.value| <= |spec.items.value|
          ==> 0 <= r.overall <= 100)
  {
    var price := data.pricing.totalPrice.value;
    var p, d, c, s := PriceAsWrittenOf(spec, data), DeliveryOf(spec, data), ComplianceOf(spec, data), SupportOf(spec, data);
    assert price >= 0.0 ==> 30.0 <= p <= 100.0;
    assert 30.0 <= d <= 100.0;
    if price >= 0.0 && |data.compliance.specsMatched.value| <= |spec.items.value| {
      assert 0.0 <= c <= 100.0;
      OverallInRange(p, d, c, s);
    }
  }
}
