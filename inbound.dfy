/**
 * Reading vendors' replies: which messages become proposals, and the
 * bookkeeping of one poll of the inbox.
 */
module Inbound {
  import opened Wrappers
  import opened Text
  import opened Model
  import opened Correlation
  import opened Db
  import opened ProposalService
  import opened ProposalScoring

  /** The sender as read: the first parsed address, else the header text, else nothing. */
  function SenderAddress(mail: InboundMail): string {
    FirstTruthy(mail.fromAddress, mail.fromText)
  }

  /**
   * The address looked up among the vendors: the sender lower-cased, then
   * trimmed, so it holds no upper-case ASCII letter and neither starts nor ends
   * in whitespace.
   */
  function NormalizedSender(mail: InboundMail): (address: string)
    ensures var lower := ToLower(SenderAddress(mail)); TrimmedAt(lower, WhitespaceEnd(lower, 0), address)
    ensures forall i :: 0 <= i < |address| ==> !('A' <= address[i] <= 'Z')
  {
    TrimmedKeepsLower(ToLower(SenderAddress(mail)), WhitespaceEnd(ToLower(SenderAddress(mail)), 0),
                      Trim(ToLower(SenderAddress(mail))));
    Trim(ToLower(SenderAddress(mail)))
  }

  datatype SkipReason = UnknownSender | NoRfpId | AlreadyProposed

  datatype Decision = Skip(reason: SkipReason) | Ingest(rfpId: RfpId, vendorId: VendorId)

  /**
   * The gates of processSingleEmail, in order: the sender must be a vendor, the
   * subject must carry an RFP id, and that vendor must not have a proposal for
   * that RFP yet. Only then is the message ingested, so a pair never gets a
   * second proposal.
   */
  function Decide(vendor: Option<VendorId>, subject: Option<string>, pairs: set<(RfpId, VendorId)>): (d: Decision)
    ensures vendor.None? ==> d == Skip(UnknownSender)
    ensures vendor.Some? && ExtractRfpId(subject).None? ==> d == Skip(NoRfpId)
    ensures vendor.Some? && ExtractRfpId(subject).Some? && (ExtractRfpId(subject).value, vendor.value) in pairs
      ==> d == Skip(AlreadyProposed)
    ensures d.Ingest? <==>
      vendor.Some? && ExtractRfpId(subject).Some? && (ExtractRfpId(subject).value, vendor.value) !in pairs
    ensures d.Ingest? ==> d.vendorId == vendor.value && d.rfpId == ExtractRfpId(subject).value
  {
    match vendor
    case None => Skip(UnknownSender)
    case Some(v) =>
      match ExtractRfpId(subject)
      case None => Skip(NoRfpId)
      case Some(r) => if (r, v) in pairs then Skip(AlreadyProposed) else Ingest(r, v)
  }

  /**
   * A known vendor's reply to an RFP email it has not answered yet is ingested
   * for that RFP, whether the subject is kept verbatim or behind a prefix such
   * as "Re: ".
   */
  lemma ReplyIsIngested(prefix: string, title: string, rfpId: RfpId, vendorId: VendorId, pairs: set<(RfpId, VendorId)>)
    requires IsObjectId(rfpId) && forall i: nat :: !HexWindowAt(title, i)
    requires prefix == [] || (!IsHexDigit(prefix[|prefix| - 1]) && forall i: nat :: !HexWindowAt(prefix, i))
    requires (rfpId, vendorId) !in pairs
    ensures Decide(Some(vendorId), Some(prefix + Subject(title, rfpId)), pairs) == Ingest(rfpId, vendorId)
  {
    if prefix == [] {
      assert prefix + Subject(title, rfpId) == Subject(title, rfpId);
      SubjectRoundTrip(title, rfpId);
    } else {
      ReplySubjectRoundTrip(prefix, title, rfpId);
    }
  }

  /** What became of one message. */
  datatype MessageOutcome = Skipped(reason: SkipReason) | Created(id: ProposalId) | Failed(error: Error)

  ghost predicate KnownSender(vendors: map<VendorId, Vendor>, mail: InboundMail, v: VendorId) {
    v in vendors && vendors[v].email == NormalizedSender(mail)
  }

  /** `vendor` is what Vendor.findOne can return for the sender: a vendor with that email, or None when there is none. */
  ghost predicate SenderLookup(vendors: map<VendorId, Vendor>, mail: InboundMail, vendor: Option<VendorId>) {
    && (vendor.Some? ==> KnownSender(vendors, mail, vendor.value))
    && (vendor.None? ==> forall v :: !KnownSender(vendors, mail, v))
  }

  /** createFromEmail on an ingested message: its error and the store as it was, or the new id and the store after it. */
  function IngestStep(s: Store, mail: InboundMail, rfpId: RfpId, vendorId: VendorId,
                      llm: string -> Option<ParsedProposal>): (MessageOutcome, Store)
  {
    match IngestError(s.rfps, s.vendors, mail, rfpId, vendorId, llm)
    case Some(e) => (Failed(e), s)
    case None => (Created(s.next), Ingested(s, mail, rfpId, vendorId, llm))
  }

  /** processSingleEmail, given the vendor found for the sender: the gates, then createFromEmail. */
  function Process(s: Store, mail: InboundMail, vendor: Option<VendorId>,
                   llm: string -> Option<ParsedProposal>): (MessageOutcome, Store)
  {
    match Decide(vendor, mail.subject, PairsOf(s.proposals))
    case Skip(reason) => (Skipped(reason), s)
    case Ingest(rfpId, vendorId) => IngestStep(s, mail, rfpId, vendorId, llm)
  }

  /**
   * What processing one message does: a message stopped at a gate is skipped
   * for that gate's reason, and one that passes them fails with createFromEmail's
   * error or creates a proposal exactly when there is none. Only a created
   * proposal changes the store, and it is the one proposal of a pair that had
   * none, stored under the next id, evaluated with its score and listed on its
   * RFP and vendor.
   */
  lemma ProcessOutcomes(s: Store, mail: InboundMail, vendor: Option<VendorId>, llm: string -> Option<ParsedProposal>)
    requires forall p :: p in s.proposals ==> p < s.next
    ensures var d, (outcome, t) := Decide(vendor, mail.subject, PairsOf(s.proposals)), Process(s, mail, vendor, llm);
      && (outcome.Skipped? <==> d.Skip?)
      && (d.Skip? ==> outcome == Skipped(d.reason))
      && (d.Ingest? ==>
            var e := IngestError(s.rfps, s.vendors, mail, d.rfpId, d.vendorId, llm);
            && (outcome.Failed? <==> e.Some?)
            && (e.Some? ==> outcome == Failed(e.value))
            && (e.None? ==> outcome == Created(s.next)))
      && (!outcome.Created? ==> t == s)
      && (outcome.Created? ==>
            var id, data := outcome.id, ParseOf(mail, llm).value;
            && d.Ingest? && id == s.next && id !in s.proposals
            && t.proposals.Keys == s.proposals.Keys + {id} && t.next == id + 1
            && PairOf(t.proposals[id]) == (d.rfpId, d.vendorId) && PairOf(t.proposals[id]) !in PairsOf(s.proposals)
            && t.proposals[id].status == Evaluated
            && t.proposals[id].scoredByAI == Some(ScoreProposal(s.rfps[d.rfpId].specifications, data))
            && id in t.rfps[d.rfpId].proposals && id in t.vendors[d.vendorId].previousProposals
            && (forall p :: p in s.proposals ==> t.proposals[p] == s.proposals[p]))
  {
    var d := Decide(vendor, mail.subject, PairsOf(s.proposals));
    if d.Ingest? && IngestError(s.rfps, s.vendors, mail, d.rfpId, d.vendorId, llm).None? {
      IngestedStoresProposal(s, mail, d.rfpId, d.vendorId, llm);
    }
  }

  /**
   * processSingleEmail: looks the sender up among the vendors, then follows the
   * gates; a message that passes them goes to createFromEmail for the RFP named
   * in the subject and that vendor. The outcome and the new store are those of
   * Process for the vendor found, and the store keeps its invariants.
   */
  method ProcessSingleEmail(db: Database, mail: InboundMail, llm: string -> Option<ParsedProposal>)
    returns (vendor: Option<VendorId>, outcome: MessageOutcome)
    requires db.Valid()
    modifies db
    ensures db.Valid()
    ensures old(db.UniquePairs()) ==> db.UniquePairs()
    ensures old(db.Complete()) ==> db.Complete()
    ensures SenderLookup(old(db.vendors), mail, vendor)
    ensures (outcome, db.State()) == Process(old(db.State()), mail, vendor, llm)
  {
    vendor := db.FindVendorByEmail(NormalizedSender(mail));
    var decision := Decide(vendor, mail.subject, db.Pairs());
    match decision
    case Skip(reason) =>
      outcome := Skipped(reason);
    case Ingest(rfpId, vendorId) =>
      outcome := IngestReply(db, mail, rfpId, vendorId, llm);
  }

  /** The last step of processSingleEmail: createFromEmail, its error or its proposal. */
  method IngestReply(db: Database, mail: InboundMail, rfpId: RfpId, vendorId: VendorId,
                     llm: string -> Option<ParsedProposal>)
    returns (outcome: MessageOutcome)
    requires db.Valid() && (rfpId, vendorId) !in db.Pairs()
    modifies db
    ensures db.Valid()
    ensures old(db.UniquePairs()) ==> db.UniquePairs()
    ensures old(db.Complete()) ==> db.Complete()
    ensures (outcome, db.State()) == IngestStep(old(db.State()), mail, rfpId, vendorId, llm)
  {
    var r := CreateFromEmail(db, mail, rfpId, vendorId, llm);
    if r.Success? {
      outcome := Created(r.value);
    } else {
      outcome := Failed(r.error);
    }
  }

  /** The ids of the proposals created. */
  function CreatedIds(outcomes: seq<MessageOutcome>): (ids: seq<ProposalId>)
    ensures |ids| <= |outcomes|
    ensures forall id :: id in ids <==> Created(id) in outcomes
  {
    if |outcomes| == 0 then []
    else
      var last := match outcomes[|outcomes| - 1] case Created(id) => [id] case _ => [];
      CreatedIds(outcomes[..|outcomes| - 1]) + last
  }

  /**
   * The handler for one fetched message, given the vendor found for its sender:
   * a message the MIME parser rejects fails and changes nothing; a parsed one is
   * processed.
   */
  function Step(s: Store, message: Option<InboundMail>, vendor: Option<VendorId>,
                llm: string -> Option<ParsedProposal>): (MessageOutcome, Store)
  {
    match message
    case None => (Failed(MailParseFailed), s)
    case Some(mail) => Process(s, mail, vendor, llm)
  }

  /** The vendors' email addresses: all that the sender lookup reads. */
  function Emails(vendors: map<VendorId, Vendor>): map<VendorId, string> {
    map v | v in vendors :: vendors[v].email
  }

  /** Vendor directories with the same addresses give the same lookups. */
  lemma SenderLookupByEmails(vendors: map<VendorId, Vendor>, others: map<VendorId, Vendor>,
                             mail: InboundMail, vendor: Option<VendorId>)
    requires Emails(vendors) == Emails(others)
    ensures SenderLookup(vendors, mail, vendor) == SenderLookup(others, mail, vendor)
  {
    forall v ensures KnownSender(vendors, mail, v) == KnownSender(others, mail, v) {
      assert v in vendors <==> v in Emails(vendors);
      assert v in others <==> v in Emails(others);
      if v in vendors {
        assert Emails(vendors)[v] == vendors[v].email;
      }
      if v in others {
        assert Emails(others)[v] == others[v].email;
      }
    }
  }

  /**
   * A handled message creates at most the proposal with the next id; no
   * proposal is removed and no vendor address changes.
   */
  lemma StepCreates(s: Store, message: Option<InboundMail>, vendor: Option<VendorId>,
                    llm: string -> Option<ParsedProposal>)
    ensures var (outcome, t) := Step(s, message, vendor, llm);
      && (!outcome.Created? ==> t == s)
      && (outcome.Created? ==> outcome.id == s.next && outcome.id in t.proposals && t.next == s.next + 1)
      && s.proposals.Keys <= t.proposals.Keys
      && Emails(t.vendors) == Emails(s.vendors)
  {
    var (outcome, t) := Step(s, message, vendor, llm);
    if outcome.Created? {
      var d := Decide(vendor, message.value.subject, PairsOf(s.proposals));
      assert t == Ingested(s, message.value, d.rfpId, d.vendorId, llm);
      assert t.vendors.Keys == s.vendors.Keys;
      forall v | v in s.vendors ensures t.vendors[v].email == s.vendors[v].email {
      }
      assert Emails(t.vendors) == Emails(s.vendors);
    }
  }

  /**
   * The reference for a poll: the messages handled one after another, each with
   * the vendor found for it and against the store the messages before it left.
   */
  function Run(s: Store, messages: seq<Option<InboundMail>>, vendors: seq<Option<VendorId>>,
               llm: string -> Option<ParsedProposal>): (r: (seq<MessageOutcome>, Store))
    requires |vendors| == |messages|
    ensures |r.0| == |messages|
    decreases |messages|
  {
    if |messages| == 0 then ([], s)
    else
      var n := |messages| - 1;
      var before := Run(s, messages[..n], vendors[..n], llm);
      var (outcome, t) := Step(before.1, messages[n], vendors[n], llm);
      (before.0 + [outcome], t)
  }

  /** One more message is handled against the store the run left. */
  lemma RunSnoc(s: Store, messages: seq<Option<InboundMail>>, vendors: seq<Option<VendorId>>,
                llm: string -> Option<ParsedProposal>, message: Option<InboundMail>, vendor: Option<VendorId>)
    requires |vendors| == |messages|
    ensures var (outcomes, t) := Run(s, messages, vendors, llm);
      var (outcome, u) := Step(t, message, vendor, llm);
      Run(s, messages + [message], vendors + [vendor], llm) == (outcomes + [outcome], u)
  {
    assert (messages + [message])[..|messages|] == messages;
    assert (vendors + [vendor])[..|vendors|] == vendors;
  }

  /** The first j outcomes of a run are the outcomes of the run over the first j messages. */
  lemma {:induction false} RunPrefix(s: Store, messages: seq<Option<InboundMail>>, vendors: seq<Option<VendorId>>,
                                     llm: string -> Option<ParsedProposal>, j: nat)
    requires |vendors| == |messages| && j <= |messages|
    ensures Run(s, messages, vendors, llm).0[..j] == Run(s, messages[..j], vendors[..j], llm).0
    decreases |messages|
  {
    if j < |messages| {
      var n := |messages| - 1;
      RunPrefix(s, messages[..n], vendors[..n], llm, j);
      assert messages[..n][..j] == messages[..j];
      assert vendors[..n][..j] == vendors[..j];
      var outcomes, earlier := Run(s, messages, vendors, llm).0, Run(s, messages[..n], vendors[..n], llm).0;
      assert outcomes[..n] == earlier;
      assert outcomes[..j] == earlier[..j];
    } else {
      assert messages[..j] == messages && vendors[..j] == vendors;
    }
  }

  /** Outcome k of a run is what message k does to the store the first k messages left. */
  lemma RunAt(s: Store, messages: seq<Option<InboundMail>>, vendors: seq<Option<VendorId>>,
              llm: string -> Option<ParsedProposal>, k: nat)
    requires |vendors| == |messages| && k < |messages|
    ensures Run(s, messages, vendors, llm).0[k] == Step(Run(s, messages[..k], vendors[..k], llm).1, messages[k], vendors[k], llm).0
  {
    RunPrefix(s, messages, vendors, llm, k + 1);
    var first, firstVendors := messages[..k + 1], vendors[..k + 1];
    assert first[..k] == messages[..k] && firstVendors[..k] == vendors[..k];
    assert first[k] == messages[k] && firstVendors[k] == vendors[k];
  }

  /**
   * Ids collected from store `s` to store `t`: strictly increasing, so none is
   * collected twice, and each names a proposal of `t` that `s` did not hold.
   */
  predicate IdsFresh(s: Store, ids: seq<ProposalId>, t: Store) {
    && s.next <= t.next
    && (forall i, j :: 0 <= i < j < |ids| ==> ids[i] < ids[j])
    && (forall i :: 0 <= i < |ids| ==> ids[i] !in s.proposals && s.next <= ids[i] < t.next && ids[i] in t.proposals)
  }

  /** The ids a run collects are fresh: increasing, new, and in the final store. */
  lemma {:induction false} CreatedIdsFresh(s: Store, messages: seq<Option<InboundMail>>, vendors: seq<Option<VendorId>>,
                                           llm: string -> Option<ParsedProposal>)
    requires |vendors| == |messages|
    requires forall p :: p in s.proposals ==> p < s.next
    ensures var (outcomes, t) := Run(s, messages, vendors, llm);
      IdsFresh(s, CreatedIds(outcomes), t)
    decreases |messages|
  {
    if |messages| > 0 {
      var n := |messages| - 1;
      CreatedIdsFresh(s, messages[..n], vendors[..n], llm);
      RunExtends(s, messages, vendors, llm);
      var (earlier, u) := Run(s, messages[..n], vendors[..n], llm);
      var (outcomes, t) := Run(s, messages, vendors, llm);
      CreatedIdsSnoc(s, outcomes, u, t);
    }
  }

  /** The last message of a run adds one outcome to those of the rest, and creates at most the next proposal. */
  lemma RunExtends(s: Store, messages: seq<Option<InboundMail>>, vendors: seq<Option<VendorId>>,
                   llm: string -> Option<ParsedProposal>)
    requires |vendors| == |messages| > 0
    ensures var n := |messages| - 1;
      var (earlier, u) := Run(s, messages[..n], vendors[..n], llm);
      var (outcomes, t) := Run(s, messages, vendors, llm);
      && outcomes[..n] == earlier
      && (!outcomes[n].Created? ==> t == u)
      && (outcomes[n].Created? ==> outcomes[n].id == u.next && outcomes[n].id in t.proposals && t.next == u.next + 1)
      && u.proposals.Keys <= t.proposals.Keys
  {
    var n := |messages| - 1;
    StepCreates(Run(s, messages[..n], vendors[..n], llm).1, messages[n], vendors[n], llm);
  }

  /** The step of CreatedIdsFresh: one more outcome keeps the collected ids fresh. */
  lemma CreatedIdsSnoc(s: Store, outcomes: seq<MessageOutcome>, u: Store, t: Store)
    requires forall p :: p in s.proposals ==> p < s.next
    requires |outcomes| > 0 && IdsFresh(s, CreatedIds(outcomes[..|outcomes| - 1]), u)
    requires var last := outcomes[|outcomes| - 1];
      && (!last.Created? ==> t == u)
      && (last.Created? ==> last.id == u.next && last.id in t.proposals && t.next == u.next + 1)
    requires u.proposals.Keys <= t.proposals.Keys
    ensures IdsFresh(s, CreatedIds(outcomes), t)
  {
    var last := outcomes[|outcomes| - 1];
    var earlier, ids := CreatedIds(outcomes[..|outcomes| - 1]), CreatedIds(outcomes);
    if last.Created? {
      assert ids == earlier + [last.id];
      IdsFreshSnoc(s, earlier, last.id, u, t);
    } else {
      assert ids == earlier;
    }
  }

  /** Collecting the next id, which the step stored, keeps the ids fresh. */
  lemma IdsFreshSnoc(s: Store, ids: seq<ProposalId>, id: ProposalId, u: Store, t: Store)
    requires forall p :: p in s.proposals ==> p < s.next
    requires IdsFresh(s, ids, u)
    requires id == u.next && id in t.proposals && t.next == u.next + 1
    requires u.proposals.Keys <= t.proposals.Keys
    ensures IdsFresh(s, ids + [id], t)
  {
    var all := ids + [id];
    forall i, j | 0 <= i < j < |all| ensures all[i] < all[j] {
      assert all[i] == ids[i];
    }
    forall i | 0 <= i < |all| ensures all[i] !in s.proposals && s.next <= all[i] < t.next && all[i] in t.proposals {
      if i < |ids| {
        assert all[i] == ids[i];
      }
    }
  }

  /**
   * The handler run for one fetched message: a message the MIME parser rejects
   * fails; otherwise it is processed. `vendor` is the vendor the lookup found.
   */
  method HandleMessage(db: Database, message: Option<InboundMail>, llm: string -> Option<ParsedProposal>)
    returns (outcome: MessageOutcome, ghost vendor: Option<VendorId>)
    requires db.Valid()
    modifies db
    ensures db.Valid()
    ensures old(db.UniquePairs()) ==> db.UniquePairs()
    ensures old(db.Complete()) ==> db.Complete()
    ensures message.Some? ==> SenderLookup(old(db.vendors), message.value, vendor)
    ensures (outcome, db.State()) == Step(old(db.State()), message, vendor, llm)
  {
    match message
    case None =>
      outcome, vendor := Failed(MailParseFailed), None;
    case Some(mail) =>
      vendor, outcome := ProcessSingleEmail(db, mail, llm);
  }

  /** Each parsed message's vendor is one the lookup can return from the vendor directory. */
  ghost predicate LookupsFit(directory: map<VendorId, Vendor>, messages: seq<Option<InboundMail>>, vendors: seq<Option<VendorId>>) {
    |vendors| == |messages| &&
    forall k :: 0 <= k < |messages| && messages[k].Some? ==> SenderLookup(directory, messages[k].value, vendors[k])
  }

  /** A message is flagged seen exactly when handling it raised no error: it was skipped or created a proposal. */
  predicate SeenFlags(outcomes: seq<MessageOutcome>, seen: seq<bool>) {
    |seen| == |outcomes| && forall k :: 0 <= k < |outcomes| ==> (seen[k] <==> !outcomes[k].Failed?)
  }

  /**
   * The messages so far were handled in turn from `first` and left `now`: the
   * outcomes are those of the run, each vendor is one the lookup could return,
   * the seen flags follow the outcomes, and the vendors' addresses are as they were.
   */
  ghost predicate HandledSoFar(first: Store, messages: seq<Option<InboundMail>>, llm: string -> Option<ParsedProposal>,
                               vendors: seq<Option<VendorId>>, outcomes: seq<MessageOutcome>, seen: seq<bool>, now: Store) {
    && LookupsFit(first.vendors, messages, vendors) && SeenFlags(outcomes, seen)
    && Emails(now.vendors) == Emails(first.vendors)
    && Run(first, messages, vendors, llm) == (outcomes, now)
  }

  /** The handlers of all fetched messages, run one after another. */
  method HandleAll(db: Database, messages: seq<Option<InboundMail>>, llm: string -> Option<ParsedProposal>)
    returns (outcomes: seq<MessageOutcome>, seen: seq<bool>, ghost vendors: seq<Option<VendorId>>)
    requires db.Valid()
    modifies db
    ensures db.Valid()
    ensures old(db.UniquePairs()) ==> db.UniquePairs()
    ensures old(db.Complete()) ==> db.Complete()
    ensures LookupsFit(old(db.vendors), messages, vendors) && SeenFlags(outcomes, seen)
    ensures (outcomes, db.State()) == Run(old(db.State()), messages, vendors, llm)
  {
    outcomes, seen, vendors := [], [], [];
    for i := 0 to |messages|
      invariant db.Valid()
      invariant old(db.UniquePairs()) ==> db.UniquePairs()
      invariant old(db.Complete()) ==> db.Complete()
      invariant HandledSoFar(old(db.State()), messages[..i], llm, vendors, outcomes, seen, db.State())
    {
      assert messages[..i + 1] == messages[..i] + [messages[i]];
      outcomes, seen, vendors := HandleNext(db, messages[i], llm, old(db.State()), messages[..i], outcomes, seen, vendors);
    }
    assert messages[..|messages|] == messages;
  }

  /**
   * One turn of HandleAll: the next message is handled against the store the
   * earlier ones left, and its outcome, seen flag and vendor are recorded.
   */
  method HandleNext(db: Database, message: Option<InboundMail>, llm: string -> Option<ParsedProposal>,
                    ghost first: Store, ghost earlier: seq<Option<InboundMail>>,
                    outcomes: seq<MessageOutcome>, seen: seq<bool>, ghost vendors: seq<Option<VendorId>>)
    returns (outcomes': seq<MessageOutcome>, seen': seq<bool>, ghost vendors': seq<Option<VendorId>>)
    requires db.Valid()
    requires HandledSoFar(first, earlier, llm, vendors, outcomes, seen, db.State())
    modifies db
    ensures db.Valid()
    ensures old(db.UniquePairs()) ==> db.UniquePairs()
    ensures old(db.Complete()) ==> db.Complete()
    ensures HandledSoFar(first, earlier + [message], llm, vendors', outcomes', seen', db.State())
  {
    ghost var before := db.State();
    var outcome;
    ghost var vendor;
    outcome, vendor := HandleMessage(db, message, llm);
    NextTurn(first, earlier, vendors, llm, outcomes, seen, before, message, vendor, outcome, db.State());
    outcomes', seen', vendors' := outcomes + [outcome], seen + [!outcome.Failed?], vendors + [vendor];
  }

  /** The bookkeeping of one turn of HandleAll, on the stores before and after the message. */
  lemma NextTurn(first: Store, earlier: seq<Option<InboundMail>>, vendors: seq<Option<VendorId>>,
                 llm: string -> Option<ParsedProposal>, outcomes: seq<MessageOutcome>, seen: seq<bool>,
                 before: Store, message: Option<InboundMail>, vendor: Option<VendorId>,
                 outcome: MessageOutcome, after: Store)
    requires HandledSoFar(first, earlier, llm, vendors, outcomes, seen, before)
    requires message.Some? ==> SenderLookup(before.vendors, message.value, vendor)
    requires (outcome, after) == Step(before, message, vendor, llm)
    ensures HandledSoFar(first, earlier + [message], llm, vendors + [vendor], outcomes + [outcome], seen + [!outcome.Failed?], after)
  {
    StepCreates(before, message, vendor, llm);
    if message.Some? {
      SenderLookupByEmails(before.vendors, first.vendors, message.value, vendor);
    }
    LookupsFitSnoc(first.vendors, earlier, vendors, message, vendor);
    SeenFlagsSnoc(outcomes, seen, outcome);
    RunSnoc(first, earlier, vendors, llm, message, vendor);
  }

  lemma LookupsFitSnoc(directory: map<VendorId, Vendor>, messages: seq<Option<InboundMail>>, vendors: seq<Option<VendorId>>,
                       message: Option<InboundMail>, vendor: Option<VendorId>)
    requires LookupsFit(directory, messages, vendors)
    requires message.Some? ==> SenderLookup(directory, message.value, vendor)
    ensures LookupsFit(directory, messages + [message], vendors + [vendor])
  {
    var ms, vs := messages + [message], vendors + [vendor];
    forall k | 0 <= k < |ms| && ms[k].Some? ensures SenderLookup(directory, ms[k].value, vs[k]) {
      if k < |messages| {
        assert ms[k] == messages[k] && vs[k] == vendors[k];
      }
    }
  }

  lemma SeenFlagsSnoc(outcomes: seq<MessageOutcome>, seen: seq<bool>, outcome: MessageOutcome)
    requires SeenFlags(outcomes, seen)
    ensures SeenFlags(outcomes + [outcome], seen + [!outcome.Failed?])
  {
  }

  /**
   * One poll, with the messages handled one after another. The search either
   * failed or found the unseen messages, each parsed or not (None). The
   * outcomes and the new store are those of the run over the messages with the
   * vendors found, a message is flagged seen exactly when handling it raised no
   * error, and the result lists the proposals created.
   */
  method PollIncomingEmails(db: Database, search: Result<seq<Option<InboundMail>>, string>,
                            llm: string -> Option<ParsedProposal>)
    returns (r: Result<seq<ProposalId>, string>, outcomes: seq<MessageOutcome>, seen: seq<bool>,
             ghost vendors: seq<Option<VendorId>>)
    requires db.Valid()
    modifies db
    ensures db.Valid()
    ensures old(db.UniquePairs()) ==> db.UniquePairs()
    ensures old(db.Complete()) ==> db.Complete()
    ensures search.Failure? ==> r == Failure(search.error) && outcomes == [] && seen == [] && unchanged(db)
    ensures search.Success? ==>
      && r == Success(CreatedIds(outcomes))
      && LookupsFit(old(db.vendors), search.value, vendors) && SeenFlags(outcomes, seen)
      && (outcomes, db.State()) == Run(old(db.State()), search.value, vendors, llm)
    ensures search.Success? ==>
      && (forall i, j :: 0 <= i < j < |r.value| ==> r.value[i] < r.value[j])
      && (forall i :: 0 <= i < |r.value| ==> r.value[i] !in old(db.proposals) && r.value[i] in db.proposals)
    ensures search.Success? && |search.value| == 0 ==> r == Success([]) && unchanged(db)
  {
    if search.Failure? {
      return Failure(search.error), [], [], [];
    }
    var messages := search.value;
    if |messages| == 0 {
      return Success([]), [], [], [];
    }
    ghost var first := db.State();
    outcomes, seen, vendors := HandleAll(db, messages, llm);
    CreatedIdsFresh(first, messages, vendors, llm);
    r := Success(CreatedIds(outcomes));
  }
}
