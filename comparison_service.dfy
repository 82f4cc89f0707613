/**
 * The comparison of an RFP's proposals: one scored entry per proposal, a text
 * summary of each for the language model, the prompt that carries them, and
 * the fixed recommendation used when the model's reply cannot be read.
 */
module ComparisonService {
  import opened Wrappers
  import opened Text
  import opened Model

  /** A proposal with its vendor document and its stored score record (None for `{}`). */
  datatype ScoredEntry = ScoredEntry(vendor: Vendor, proposal: Proposal, scores: Option<ScoreRecord>)

  datatype Alternative = Alternative(vendorName: string, whyConsider: string)

  /** The recommendation object the model is asked to return. */
  datatype Recommendation = Recommendation(
    recommendedVendor: string,
    overallReasoning: string,
    keyStrengths: seq<string>,
    riskFactors: seq<string>,
    alternatives: seq<Alternative>,
    decision: Option<string>)

  datatype Comparison = Comparison(
    rfpId: RfpId,
    totalProposals: nat,
    proposals: seq<ScoredEntry>,
    recommendation: Recommendation)

  /** The language model with the recommendation system prompt: the parsed reply to a user prompt, or None. */
  type Advisor = string -> Option<Recommendation>

  const Separator := "\n\n---\n\n"

  /** What generateRecommendation returns when the reply is not valid JSON. */
  const Fallback := Recommendation("Unable to generate recommendation", "Error in AI analysis", [], [], [], None)

  // ------------------------------------------------------------ entries

  function Entry(found: (Proposal, Vendor)): ScoredEntry {
    ScoredEntry(found.1, found.0, found.0.scoredByAI)
  }

  /** The proposals with their populated vendors, mapped to scored entries. */
  function ScoredEntries(found: seq<(Proposal, Vendor)>): (entries: seq<ScoredEntry>)
    ensures |entries| == |found|
    ensures forall i :: 0 <= i < |found| ==>
      && entries[i].proposal == found[i].0
      && entries[i].vendor == found[i].1
      && entries[i].scores == found[i].0.scoredByAI
    decreases |found|
  {
    if |found| == 0 then [] else ScoredEntries(found[..|found| - 1]) + [Entry(found[|found| - 1])]
  }

  // ------------------------------------------------------------ summary

  /** The values buildProposalSummary writes into its template, defaults applied. */
  datatype SummaryFields = SummaryFields(
    vendorName: string, vendorEmail: string,
    currency: string, total: string, breakdown: string, discounts: string,
    leadTime: string, estimatedDate: string, shippingCost: string,
    payment: string, warranty: string, support: string,
    specsMatched: string, specsNotMatched: string,
    overall: string)

  /** One breakdown line: "name @ currency price/unit". */
  function BreakdownLine(b: PriceLine, fmt: NumberFormat): string {
    b.itemName + " @ " + OrUndefined(b.currency) + " " + fmt.plain(b.unitPrice) + "/unit"
  }

  function BreakdownLines(lines: seq<PriceLine>, fmt: NumberFormat): seq<string> {
    seq(|lines|, i requires 0 <= i < |lines| => BreakdownLine(lines[i], fmt))
  }

  /** `total?.toLocaleString() || 'N/A'`. */
  function TotalText(t: Option<real>, fmt: NumberFormat): (s: string)
    ensures t.None? ==> s == "N/A"
    ensures t.Some? && fmt.locale(t.value) != "" ==> s == fmt.locale(t.value)
    ensures s != ""
  {
    if t.Some? then OrDefault(Some(fmt.locale(t.value)), "N/A") else "N/A"
  }

  /** The price lines joined with ", ", or "N/A" when there are none. */
  function BreakdownText(b: Option<seq<PriceLine>>, fmt: NumberFormat): (s: string)
    ensures b.None? || b.value == [] ==> s == "N/A"
    ensures b.Some? && b.value != [] ==> s == Join(BreakdownLines(b.value, fmt), ", ")
  {
    OrDefault(if b.Some? then Some(Join(BreakdownLines(b.value, fmt), ", ")) else None, "N/A")
  }

  /** `shippingCost || 'Included'`: a cost of 0 also reads "Included". */
  function ShippingText(c: Option<real>, fmt: NumberFormat): (s: string)
    ensures c.None? || c.value == 0.0 ==> s == "Included"
    ensures c.Some? && c.value != 0.0 ==> s == fmt.plain(c.value)
  {
    if c.Some? && c.value != 0.0 then fmt.plain(c.value) else "Included"
  }

  /** `list?.join(', ') || d`. */
  function ListText(n: Option<seq<string>>, d: string): (s: string)
    ensures n.None? || n.value == [] ==> s == d
    ensures n.Some? && Join(n.value, ", ") != "" ==> s == Join(n.value, ", ")
  {
    OrDefault(if n.Some? then Some(Join(n.value, ", ")) else None, d)
  }

  /** `scores.overall || 'N/A'`: a missing record or an overall score of 0 reads "N/A". */
  function OverallText(scores: Option<ScoreRecord>): (s: string)
    ensures scores.None? || scores.value.overall == 0 ==> s == "N/A"
    ensures scores.Some? && scores.value.overall != 0 ==> s == IntToString(scores.value.overall)
  {
    if scores.Some? && scores.value.overall != 0 then IntToString(scores.value.overall) else "N/A"
  }

  /**
   * The values buildProposalSummary writes into its template: the vendor's name
   * and e-mail and the currency as they are, every field with a default never empty.
   */
  function SummaryFieldsOf(vendor: Vendor, data: ParsedProposal, scores: Option<ScoreRecord>, fmt: NumberFormat): (f: SummaryFields)
    ensures f.vendorName == vendor.name && f.vendorEmail == vendor.email && f.currency == data.pricing.currency
    ensures f.total != "" && f.breakdown != "" && f.discounts != "" && f.leadTime != "" && f.estimatedDate != ""
    ensures f.shippingCost != "" || (data.deliveryDetails.shippingCost.Some? && data.deliveryDetails.shippingCost.value != 0.0)
    ensures f.payment != "" && f.warranty != "" && f.support != "" && f.specsMatched != "" && f.specsNotMatched != "" && f.overall != ""
  {
    var pricing, delivery, terms, compliance := data.pricing, data.deliveryDetails, data.terms, data.compliance;
    SummaryFields(
      vendor.name, vendor.email,
      pricing.currency,
      TotalText(pricing.totalPrice, fmt),
      BreakdownText(pricing.breakdown, fmt),
      OrDefault(pricing.discounts, "None"),
      OrDefault(delivery.leadTime, "N/A"),
      OrDefault(delivery.estimatedDate, "N/A"),
      ShippingText(delivery.shippingCost, fmt),
      OrDefault(terms.paymentTerms, "Net 30"),
      OrDefault(terms.warranty, "12 months"),
      OrDefault(terms.supportLevel, "Standard"),
      IntToString(if compliance.specsMatched.Some? then |compliance.specsMatched.value| else 0),
      ListText(compliance.specsNotMatched, "None"),
      OverallText(scores))
  }

  /** The text fields fall back to their fixed defaults exactly when the proposal leaves them absent or empty. */
  lemma SummaryTextDefaults(vendor: Vendor, data: ParsedProposal, scores: Option<ScoreRecord>, fmt: NumberFormat)
    ensures var f := SummaryFieldsOf(vendor, data, scores, fmt);
      && (data.pricing.discounts.None? ==> f.discounts == "None")
      && (data.deliveryDetails.leadTime.None? ==> f.leadTime == "N/A")
      && (data.deliveryDetails.estimatedDate.None? ==> f.estimatedDate == "N/A")
      && (data.terms.paymentTerms.None? ==> f.payment == "Net 30")
      && (data.terms.warranty.None? ==> f.warranty == "12 months")
      && (data.terms.supportLevel.None? ==> f.support == "Standard")
      && (data.pricing.discounts.Some? && data.pricing.discounts.value != "" ==> f.discounts == data.pricing.discounts.value)
      && (data.deliveryDetails.leadTime.Some? && data.deliveryDetails.leadTime.value != "" ==> f.leadTime == data.deliveryDetails.leadTime.value)
      && (data.deliveryDetails.estimatedDate.Some? && data.deliveryDetails.estimatedDate.value != "" ==>
            f.estimatedDate == data.deliveryDetails.estimatedDate.value)
      && (data.terms.paymentTerms.Some? && data.terms.paymentTerms.value != "" ==> f.payment == data.terms.paymentTerms.value)
      && (data.terms.warranty.Some? && data.terms.warranty.value != "" ==> f.warranty == data.terms.warranty.value)
      && (data.terms.supportLevel.Some? && data.terms.supportLevel.value != "" ==> f.support == data.terms.supportLevel.value)
  {
  }

  /** The fixed text of the summary before its last line; a field goes between each two parts. */
  const SummaryParts: seq<string> := [
    "\n**Vendor: ", "** (", ")\n\nPricing:\n- Total: ", " ",
    "\n- Breakdown: ", "\n- Discounts: ",
    "\n\nDelivery:\n- Lead Time: ", "\n- Estimated Delivery: ", "\n- Shipping Cost: ",
    "\n\nTerms:\n- Payment: ", "\n- Warranty: ", "\n- Support: ",
    "\n\nCompliance:\n- Specs Matched: ", "\n- Specs Not Matched: ", ""]

  function SummaryValues(f: SummaryFields): seq<string> {
    [f.vendorName, f.vendorEmail, f.currency, f.total, f.breakdown, f.discounts,
     f.leadTime, f.estimatedDate, f.shippingCost, f.payment, f.warranty, f.support,
     f.specsMatched, f.specsNotMatched]
  }

  /** Everything in the summary before its last line. */
  function SummaryHead(f: SummaryFields): string {
    Template(SummaryParts, SummaryValues(f))
  }

  function ScoreLine(f: SummaryFields): string {
    "Overall Score: " + f.overall + "/100"
  }

  function SummaryText(f: SummaryFields): string {
    SummaryHead(f) + "\n\n" + ScoreLine(f) + "\n"
  }

  /** Text that opens the summary: the vendor's name and e-mail, then the pricing heading. */
  function VendorLine(vendor: Vendor): string {
    "\n**Vendor: " + vendor.name + "** (" + vendor.email + ")\n\nPricing:\n- Total: "
  }

  /** A template literal with two values or more opens with its first three parts and the two values between them. */
  lemma TemplateOpening(parts: seq<string>, values: seq<string>)
    requires |parts| == |values| + 1 && |values| >= 2
    ensures var opening := parts[0] + values[0] + parts[1] + values[1] + parts[2];
      |opening| <= |Template(parts, values)| && Template(parts, values)[..|opening|] == opening
  {
    var rest := Template(parts[2..], values[2..]);
    assert parts[1..][1..] == parts[2..] && values[1..][1..] == values[2..];
    assert Template(parts, values) == parts[0] + values[0] + parts[1] + values[1] + rest;
    assert rest[..|parts[2]|] == parts[2];
  }

  /** The summary text opens with the vendor's name and e-mail and the pricing heading, and ends with the score line. */
  lemma SummaryTextEnds(f: SummaryFields)
    ensures var opening := SummaryParts[0] + f.vendorName + SummaryParts[1] + f.vendorEmail + SummaryParts[2];
      |opening| <= |SummaryText(f)| && SummaryText(f)[..|opening|] == opening
    ensures var tail := "\n\n" + ScoreLine(f) + "\n";
      |tail| <= |SummaryText(f)| && SummaryText(f)[|SummaryText(f)| - |tail|..] == tail
  {
    TemplateOpening(SummaryParts, SummaryValues(f));
  }

  /**
   * buildProposalSummary: it opens with the vendor's name and e-mail and
   * closes with the score line.
   */
  function ProposalSummary(e: ScoredEntry, fmt: NumberFormat): (s: string)
    ensures |VendorLine(e.vendor)| <= |s| && s[..|VendorLine(e.vendor)|] == VendorLine(e.vendor)
    ensures var tail := "\n\n" + ScoreLine(SummaryFieldsOf(e.vendor, e.proposal.parsedData, e.scores, fmt)) + "\n";
      |tail| <= |s| && s[|s| - |tail|..] == tail
  {
    var f := SummaryFieldsOf(e.vendor, e.proposal.parsedData, e.scores, fmt);
    SummaryTextEnds(f);
    assert VendorLine(e.vendor) == SummaryParts[0] + f.vendorName + SummaryParts[1] + f.vendorEmail + SummaryParts[2];
    SummaryText(f)
  }

  /** The summary ends with the score line, which shows the stored overall score or "N/A". */
  lemma SummaryShowsScore(e: ScoredEntry, fmt: NumberFormat)
    ensures var f := SummaryFieldsOf(e.vendor, e.proposal.parsedData, e.scores, fmt);
      Contains(ProposalSummary(e, fmt), ScoreLine(f))
  {
    var f := SummaryFieldsOf(e.vendor, e.proposal.parsedData, e.scores, fmt);
    ContainsMiddle(SummaryHead(f) + "\n\n", ScoreLine(f), "\n");
  }

  /**
   * Read back with parseInt, the number fields give the count of matched specs
   * and, unless it shows "N/A", the stored overall score.
   */
  lemma SummaryNumbersReadBack(vendor: Vendor, data: ParsedProposal, scores: Option<ScoreRecord>, fmt: NumberFormat)
    ensures var f, m := SummaryFieldsOf(vendor, data, scores, fmt), data.compliance.specsMatched;
      && ParseInt(f.specsMatched) == Some(if m.Some? then |m.value| else 0)
      && (f.overall != "N/A" ==> scores.Some? && ParseInt(f.overall) == Some(scores.value.overall))
  {
    var f, m := SummaryFieldsOf(vendor, data, scores, fmt), data.compliance.specsMatched;
    ParseIntOfIntToString(if m.Some? then |m.value| else 0);
    if scores.Some? {
      ParseIntOfIntToString(scores.value.overall);
    }
  }

  // ------------------------------------------------------ recommendation

  function SummaryTexts(entries: seq<ScoredEntry>, fmt: NumberFormat): (ts: seq<string>)
    ensures |ts| == |entries|
    ensures forall i :: 0 <= i < |entries| ==> ts[i] == ProposalSummary(entries[i], fmt)
  {
    seq(|entries|, i requires 0 <= i < |entries| => ProposalSummary(entries[i], fmt))
  }

  /** The summaries of all entries, in order, separated by a rule. */
  function ProposalSummaries(entries: seq<ScoredEntry>, fmt: NumberFormat): string {
    Join(SummaryTexts(entries, fmt), Separator)
  }

  /** One more entry adds the separator and its summary at the end. */
  lemma SummariesInOrder(entries: seq<ScoredEntry>, e: ScoredEntry, fmt: NumberFormat)
    requires |entries| > 0
    ensures ProposalSummaries(entries + [e], fmt) == ProposalSummaries(entries, fmt) + Separator + ProposalSummary(e, fmt)
  {
    var a, b := SummaryTexts(entries + [e], fmt), SummaryTexts(entries, fmt) + [ProposalSummary(e, fmt)];
    forall i | 0 <= i < |a|
      ensures a[i] == b[i]
    {
      if i < |entries| {
        assert (entries + [e])[i] == entries[i];
      }
    }
    assert a == b;
    JoinSnoc(SummaryTexts(entries, fmt), ProposalSummary(e, fmt), Separator);
  }

  /** `${x}` for a field of a nested path that may be unset. */
  function PlainOrUndefined(x: Option<real>, fmt: NumberFormat): string {
    if x.Some? then fmt.plain(x.value) else "undefined"
  }

  function ItemNames(items: Option<seq<Item>>): (names: seq<string>)
    ensures items.None? ==> names == []
    ensures items.Some? ==> |names| == |items.value| && forall k :: 0 <= k < |names| ==> names[k] == items.value[k].name
  {
    if items.Some? then seq(|items.value|, i requires 0 <= i < |items.value| => items.value[i].name) else []
  }

  /** Every item name is found in the names joined with ", ". */
  lemma ItemNamesJoined(items: Option<seq<Item>>)
    ensures forall k :: 0 <= k < |ItemNames(items)| ==> Contains(Join(ItemNames(items), ", "), ItemNames(items)[k])
  {
    forall k | 0 <= k < |ItemNames(items)| ensures Contains(Join(ItemNames(items), ", "), ItemNames(items)[k]) {
      JoinContainsElement(ItemNames(items), ", ", k);
    }
  }

  /** The part of the user prompt before the summaries: budget, deadline and item names. It names every item. */
  function Requirements(spec: Specifications, fmt: NumberFormat): (r: string)
    ensures forall k :: 0 <= k < |ItemNames(spec.items)| ==> Contains(r, ItemNames(spec.items)[k])
  {
    var total := if spec.budget.Some? then PlainOrUndefined(spec.budget.value.total, fmt) else "undefined";
    var currency := if spec.budget.Some? then OrUndefined(spec.budget.value.currency) else "undefined";
    var deadline := if spec.deliveryTerms.Some? then OrUndefined(spec.deliveryTerms.value.deadline) else "undefined";
    var pre := "\nRFP Requirements:\nBudget: " + total + " " + currency + "\nDelivery Required: " + deadline + "\nKey Items: ";
    var names := Join(ItemNames(spec.items), ", ");
    var post := "\n\nVendor Proposals:\n";
    ItemNamesJoined(spec.items);
    ContainsAllWithin(pre, names, post, ItemNames(spec.items));
    pre + names + post
  }

  const Question := "\n\nBased on the scores and details above, which vendor should we choose and why?\n"

  /** The user prompt of generateRecommendation: the requirements, the summaries, the question. It names every item. */
  function RecommendationPrompt(spec: Specifications, entries: seq<ScoredEntry>, fmt: NumberFormat): (r: string)
    ensures forall k :: 0 <= k < |ItemNames(spec.items)| ==> Contains(r, ItemNames(spec.items)[k])
  {
    var req, summaries := Requirements(spec, fmt), ProposalSummaries(entries, fmt);
    ContainsAllWithin("", req, summaries + Question, ItemNames(spec.items));
    assert "" + req + (summaries + Question) == req + summaries + Question;
    req + summaries + Question
  }

  /** Every entry's summary is in the prompt the model sees. */
  lemma SummaryInPrompt(spec: Specifications, entries: seq<ScoredEntry>, fmt: NumberFormat, k: nat)
    requires k < |entries|
    ensures Contains(RecommendationPrompt(spec, entries, fmt), ProposalSummary(entries[k], fmt))
  {
    JoinContainsElement(SummaryTexts(entries, fmt), Separator, k);
    ContainsWithin(Requirements(spec, fmt), ProposalSummaries(entries, fmt), Question, ProposalSummary(entries[k], fmt));
  }

  /** generateRecommendation: the model's parsed reply, or the fixed fallback when there is none. */
  function GenerateRecommendation(spec: Specifications, entries: seq<ScoredEntry>, fmt: NumberFormat, advisor: Advisor): (r: Recommendation)
    ensures var reply := advisor(RecommendationPrompt(spec, entries, fmt));
      && (reply.Some? ==> r == reply.value)
      && (reply.None? ==> && r.recommendedVendor == "Unable to generate recommendation"
                          && r.overallReasoning == "Error in AI analysis"
                          && r.keyStrengths == [] && r.riskFactors == [] && r.alternatives == []
                          && r.decision.None?)
  {
    advisor(RecommendationPrompt(spec, entries, fmt)).GetOr(Fallback)
  }

  /**
   * The TypeError the user prompt raises when it reads a part of the
   * specifications that is not there. The parts are read in order: the budget's
   * `total`, the delivery terms' `deadline`, then `items.map`.
   */
  function PromptReadError(spec: Specifications): (e: Option<Error>)
    ensures e.None? <==> spec.budget.Some? && spec.deliveryTerms.Some? && spec.items.Some?
    ensures spec.budget.None? ==> e == Some(UndefinedRead("total"))
    ensures spec.budget.Some? && spec.deliveryTerms.None? ==> e == Some(UndefinedRead("deadline"))
    ensures spec.budget.Some? && spec.deliveryTerms.Some? && spec.items.None? ==> e == Some(UndefinedRead("map"))
  {
    if spec.budget.None? then Some(UndefinedRead("total"))
    else if spec.deliveryTerms.None? then Some(UndefinedRead("deadline"))
    else if spec.items.None? then Some(UndefinedRead("map"))
    else None
  }

  /**
   * compareAndRecommend, given what the store returns for the RFP id: the RFP
   * (None when there is none) and its proposals with their vendors, in order.
   * No proposals is an error even when the RFP exists; proposals without an
   * RFP fail when the prompt reads the missing RFP's specifications, and so
   * does an RFP whose budget, delivery terms or items are missing.
   */
  function CompareAndRecommend(rfpId: RfpId, rfp: Option<Rfp>, found: seq<(Proposal, Vendor)>,
                               fmt: NumberFormat, advisor: Advisor): (r: Result<Comparison, Error>)
    ensures |found| == 0 ==> r == Failure(NoProposals)
    ensures |found| > 0 && rfp.None? ==> r == Failure(NullRfp)
    ensures |found| > 0 && rfp.Some? && PromptReadError(rfp.value.specifications).Some? ==>
      r == Failure(PromptReadError(rfp.value.specifications).value)
    ensures r.Success? <==> |found| > 0 && rfp.Some? && PromptReadError(rfp.value.specifications).None?
    ensures r.Success? ==>
      && r.value.rfpId == rfpId
      && r.value.totalProposals == |found|
      && r.value.proposals == ScoredEntries(found)
      && r.value.recommendation == GenerateRecommendation(rfp.value.specifications, ScoredEntries(found), fmt, advisor)
  {
    if |found| == 0 then Failure(NoProposals)
    else
      var entries := ScoredEntries(found);
      if rfp.None? then Failure(NullRfp)
      else if PromptReadError(rfp.value.specifications).Some? then Failure(PromptReadError(rfp.value.specifications).value)
      else Success(Comparison(rfpId, |entries|, entries, GenerateRecommendation(rfp.value.specifications, entries, fmt, advisor)))
  }
}
