/**
 * Turning a vendor's reply into a stored, scored proposal: the email text is
 * assembled with its attachments, handed to the language model, scored against
 * the RFP, saved, and linked from the RFP and from the vendor.
 */
module ProposalService {
  import opened Wrappers
  import opened Text
  import opened Model
  import opened ProposalScoring
  import opened Db

  // ------------------------------------------------------- email content

  /** The label line every attachment contributes. */
  function AttachmentLabel(a: Attachment): string {
    "\n\n[Attachment: " + OrUndefined(a.filename) + "]"
  }

  /** An attachment's label, followed by its content when its type is textual. */
  function AttachmentBlock(a: Attachment): string {
    AttachmentLabel(a) + (if Contains(a.contentType, "text") then "\n" + a.content else "")
  }

  /** The body with the blocks of the attachments appended one after another. */
  function EmailContent(body: string, attachments: seq<Attachment>): (r: string)
    ensures |body| <= |r| && r[..|body|] == body
  {
    if |attachments| == 0 then body
    else EmailContent(body, attachments[..|attachments| - 1]) + AttachmentBlock(attachments[|attachments| - 1])
  }

  /** The attachment blocks, first attachment first. */
  function Blocks(attachments: seq<Attachment>): string {
    if |attachments| == 0 then "" else AttachmentBlock(attachments[0]) + Blocks(attachments[1..])
  }

  lemma {:induction false} BlocksSnoc(attachments: seq<Attachment>, a: Attachment)
    ensures Blocks(attachments + [a]) == Blocks(attachments) + AttachmentBlock(a)
  {
    if |attachments| > 0 {
      assert (attachments + [a])[1..] == attachments[1..] + [a];
      BlocksSnoc(attachments[1..], a);
    } else {
      assert attachments + [a] == [a];
    }
  }

  /** The assembled content is the body, then each attachment's block in list order. */
  lemma {:induction false} EmailContentIsBodyThenBlocks(body: string, attachments: seq<Attachment>)
    ensures EmailContent(body, attachments) == body + Blocks(attachments)
  {
    if |attachments| > 0 {
      var init, last := attachments[..|attachments| - 1], attachments[|attachments| - 1];
      assert attachments == init + [last];
      EmailContentIsBodyThenBlocks(body, init);
      BlocksSnoc(init, last);
    }
  }

  /** The body of the loop of extractEmailContent: one attachment's label, then its text if textual. */
  method AppendAttachment(content: string, attachment: Attachment) returns (out: string)
    ensures out == content + AttachmentBlock(attachment)
  {
    out := content + "\n\n[Attachment: " + OrUndefined(attachment.filename) + "]";
    if Contains(attachment.contentType, "text") {
      out := out + "\n" + attachment.content;
    }
  }

  /** extractEmailContent: appends one block per attachment to the body. */
  method ExtractEmailContent(emailContent: string, attachments: seq<Attachment>) returns (content: string)
    ensures content == EmailContent(emailContent, attachments)
    ensures content == emailContent + Blocks(attachments)
    ensures attachments == [] ==> content == emailContent
  {
    content := emailContent;
    for i := 0 to |attachments|
      invariant content == EmailContent(emailContent, attachments[..i])
    {
      content := AppendAttachment(content, attachments[i]);
      assert attachments[..i + 1][..i] == attachments[..i];
    }
    assert attachments[..|attachments|] == attachments;
    EmailContentIsBodyThenBlocks(emailContent, attachments);
  }

  // -------------------------------------------------------- model parsing

  function ProposalPrompt(content: string): string {
    "Parse this vendor proposal email:\n\n" + content
  }

  /** useAIToParseProposal: a reply that is not JSON becomes an error. */
  function UseAIToParseProposal(content: string, llm: string -> Option<ParsedProposal>): (r: Result<ParsedProposal, Error>)
    ensures r.Success? <==> llm(ProposalPrompt(content)).Some?
    ensures r.Success? ==> r.value == llm(ProposalPrompt(content)).value
    ensures r.Failure? ==> r.error == ProposalParseFailed
  {
    match llm(ProposalPrompt(content))
    case Some(data) => Success(data)
    case None => Failure(ProposalParseFailed)
  }

  /** The body stored and parsed: the text part, else the HTML part, else nothing. */
  function MailBody(mail: InboundMail): (body: string)
    ensures mail.text.Some? && mail.text.value != "" ==> body == mail.text.value
    ensures (mail.text.None? || mail.text.value == "") && mail.html.Some? ==> body == mail.html.value
    ensures (mail.text.None? || mail.text.value == "") && mail.html.None? ==> body == ""
  {
    FirstTruthy(mail.text, mail.html)
  }

  function MailAttachments(mail: InboundMail): seq<Attachment> {
    mail.attachments.GetOr([])
  }

  /** What the model makes of a message. */
  function ParseOf(mail: InboundMail, llm: string -> Option<ParsedProposal>): Option<ParsedProposal> {
    llm(ProposalPrompt(EmailContent(MailBody(mail), MailAttachments(mail))))
  }

  // ------------------------------------------------------------ ingestion

  /** createProposal: saves a freshly parsed, not yet scored proposal. */
  method CreateProposal(db: Database, rfpId: RfpId, vendorId: VendorId, rawEmailBody: string,
                        rawAttachments: seq<Attachment>, parsedData: ParsedProposal)
    returns (id: ProposalId)
    requires db.Referenced()
    modifies db
    ensures db.Referenced()
    ensures id == old(db.nextProposalId) && id !in old(db.proposals) && db.nextProposalId == id + 1
    ensures db.proposals == old(db.proposals)[id := Proposal(rfpId, vendorId, rawEmailBody, rawAttachments, parsedData, None, Parsed)]
    ensures db.rfps == old(db.rfps) && db.vendors == old(db.vendors)
  {
    id := db.InsertProposal(Proposal(rfpId, vendorId, rawEmailBody, rawAttachments, parsedData, None, Parsed));
  }

  /**
   * The error createFromEmail raises, if any, in the order its steps can fail:
   * the vendor lookup, the parse, the RFP lookup, the score.
   */
  function IngestError(rfps: map<RfpId, Rfp>, vendors: map<VendorId, Vendor>, mail: InboundMail,
                       rfpId: RfpId, vendorId: VendorId, llm: string -> Option<ParsedProposal>): (e: Option<Error>)
    ensures e.None? <==>
      && vendorId in vendors && ParseOf(mail, llm).Some? && rfpId in rfps
      && Scorable(rfps[rfpId].specifications, ParseOf(mail, llm).value)
    ensures vendorId !in vendors ==> e == Some(VendorNotFound(vendorId))
    ensures vendorId in vendors && ParseOf(mail, llm).None? ==> e == Some(ProposalParseFailed)
    ensures vendorId in vendors && ParseOf(mail, llm).Some? && rfpId !in rfps ==> e == Some(RfpNotFound(rfpId))
    ensures e.Some? ==> e.value in {VendorNotFound(vendorId), ProposalParseFailed, RfpNotFound(rfpId), ScoreNotFinite}
  {
    if vendorId !in vendors then Some(VendorNotFound(vendorId))
    else if ParseOf(mail, llm).None? then Some(ProposalParseFailed)
    else if rfpId !in rfps then Some(RfpNotFound(rfpId))
    else if !Scorable(rfps[rfpId].specifications, ParseOf(mail, llm).value) then Some(ScoreNotFinite)
    else None
  }

  /**
   * The store after createFromEmail succeeds: the proposal is stored under the
   * next id, evaluated with its score, and appended to its RFP's list (which
   * then has responses) and to its vendor's history.
   */
  function Ingested(s: Store, mail: InboundMail, rfpId: RfpId, vendorId: VendorId,
                    llm: string -> Option<ParsedProposal>): Store
    requires IngestError(s.rfps, s.vendors, mail, rfpId, vendorId, llm).None?
  {
    var id, data := s.next, ParseOf(mail, llm).value;
    var rfp, vendor := s.rfps[rfpId], s.vendors[vendorId];
    Store(s.rfps[rfpId := rfp.(proposals := rfp.proposals + [id], status := ResponsesReceived)],
          s.vendors[vendorId := vendor.(previousProposals := vendor.previousProposals + [id])],
          s.proposals[id := Proposal(rfpId, vendorId, MailBody(mail), MailAttachments(mail),
                                     data, Some(ScoreProposal(rfp.specifications, data)), Evaluated)],
          id + 1)
  }

  /**
   * What the successful ingestion leaves in the store: one more proposal, under
   * an id not used before, for that RFP and vendor, evaluated with the score of
   * its parse against the RFP, and listed on both; every other proposal as it was.
   */
  lemma IngestedStoresProposal(s: Store, mail: InboundMail, rfpId: RfpId, vendorId: VendorId,
                               llm: string -> Option<ParsedProposal>)
    requires IngestError(s.rfps, s.vendors, mail, rfpId, vendorId, llm).None?
    requires forall p :: p in s.proposals ==> p < s.next
    ensures var t, id, data := Ingested(s, mail, rfpId, vendorId, llm), s.next, ParseOf(mail, llm).value;
      && id !in s.proposals && t.proposals.Keys == s.proposals.Keys + {id} && t.next == id + 1
      && t.proposals[id].rfpId == rfpId && t.proposals[id].vendorId == vendorId
      && t.proposals[id].parsedData == data && t.proposals[id].status == Evaluated
      && t.proposals[id].scoredByAI == Some(ScoreProposal(s.rfps[rfpId].specifications, data))
      && id in t.rfps[rfpId].proposals && t.rfps[rfpId].status == ResponsesReceived
      && id in t.vendors[vendorId].previousProposals
      && (forall p :: p in s.proposals ==> t.proposals[p] == s.proposals[p])
      && t.rfps.Keys == s.rfps.Keys && t.vendors.Keys == s.vendors.Keys
  {
  }

  /** Step 4 of createFromEmail: the saved proposal gets its score and is marked evaluated. */
  method RecordScore(db: Database, id: ProposalId, scores: ScoreRecord)
    requires id in db.proposals
    modifies db
    ensures db.proposals == old(db.proposals)[id := old(db.proposals)[id].(scoredByAI := Some(scores), status := Evaluated)]
    ensures db.rfps == old(db.rfps) && db.vendors == old(db.vendors) && db.nextProposalId == old(db.nextProposalId)
  {
    var proposal := db.proposals[id];
    proposal := proposal.(scoredByAI := Some(scores), status := Evaluated);
    db.proposals := db.proposals[id := proposal];
  }

  /**
   * Steps 5 and 6 of createFromEmail: the new proposal is appended to its RFP's
   * list (which then has responses) and to its vendor's history, unless already there.
   */
  method LinkProposal(db: Database, id: ProposalId, ghost before: map<ProposalId, Proposal>)
    requires id in db.proposals && id !in before && db.proposals == before[id := db.proposals[id]]
    requires db.proposals[id].rfpId in db.rfps && db.proposals[id].vendorId in db.vendors
    requires ReferencedIn(before, db.rfps, db.vendors, id) && db.nextProposalId == id + 1
    requires ListedIn(before, db.rfps, db.vendors)
    modifies db
    ensures db.Valid()
    ensures var rfpId, rfp := old(db.proposals)[id].rfpId, old(db.rfps)[old(db.proposals)[id].rfpId];
      db.rfps == old(db.rfps)[rfpId := rfp.(proposals := rfp.proposals + [id], status := ResponsesReceived)]
    ensures var vendorId, vendor := old(db.proposals)[id].vendorId, old(db.vendors)[old(db.proposals)[id].vendorId];
      db.vendors == old(db.vendors)[vendorId := vendor.(previousProposals := vendor.previousProposals + [id])]
    ensures db.proposals == old(db.proposals) && db.nextProposalId == old(db.nextProposalId)
    ensures multiset(db.rfps[old(db.proposals)[id].rfpId].proposals)[id] == 1
    ensures multiset(db.vendors[old(db.proposals)[id].vendorId].previousProposals)[id] == 1
    ensures CompleteIn(before, old(db.rfps), old(db.vendors)) ==> db.Complete()
  {
    var rfpId, vendorId := db.proposals[id].rfpId, db.proposals[id].vendorId;
    var rfp := db.rfps[rfpId];
    assert id !in rfp.proposals;
    if id !in rfp.proposals {
      db.rfps := db.rfps[rfpId := rfp.(proposals := rfp.proposals + [id], status := ResponsesReceived)];
    }
    var vendor := db.vendors[vendorId];
    assert id !in vendor.previousProposals;
    if id !in vendor.previousProposals {
      db.vendors := db.vendors[vendorId := vendor.(previousProposals := vendor.previousProposals + [id])];
    }
    ListedAfterLinking(db.proposals, before, db.rfps, old(db.rfps), db.vendors, old(db.vendors), id, rfpId, vendorId);
    ReferencedAfterLinking(db.proposals, before, db.rfps, old(db.rfps), db.vendors, old(db.vendors), id, rfpId, vendorId, db.nextProposalId);
    OnceInDistinct(db.rfps[rfpId].proposals, id);
    OnceInDistinct(db.vendors[vendorId].previousProposals, id);
    if CompleteIn(before, old(db.rfps), old(db.vendors)) {
      CompleteAfterLinking(db.proposals, before, db.rfps, old(db.rfps), db.vendors, old(db.vendors), id, rfpId, vendorId);
    }
  }

  /**
   * Steps 3 to 6 of createFromEmail, once the vendor, the parse, the RFP and the
   * score are in hand: save, record the score, link.
   */
  method RecordProposal(db: Database, rfpId: RfpId, vendorId: VendorId, body: string,
                        attachments: seq<Attachment>, data: ParsedProposal, scores: ScoreRecord)
    returns (id: ProposalId)
    requires db.Valid() && rfpId in db.rfps && vendorId in db.vendors
    modifies db
    ensures db.Valid()
    ensures id == old(db.nextProposalId) && id !in old(db.proposals) && db.nextProposalId == id + 1
    ensures db.proposals == old(db.proposals)[id := Proposal(rfpId, vendorId, body, attachments, data, Some(scores), Evaluated)]
    ensures var rfp := old(db.rfps)[rfpId];
      db.rfps == old(db.rfps)[rfpId := rfp.(proposals := rfp.proposals + [id], status := ResponsesReceived)]
    ensures var vendor := old(db.vendors)[vendorId];
      db.vendors == old(db.vendors)[vendorId := vendor.(previousProposals := vendor.previousProposals + [id])]
    ensures multiset(db.rfps[rfpId].proposals)[id] == 1
    ensures multiset(db.vendors[vendorId].previousProposals)[id] == 1
    ensures old(db.Complete()) ==> db.Complete()
    ensures old(db.UniquePairs()) && (rfpId, vendorId) !in old(db.Pairs()) ==> db.UniquePairs()
  {
    ghost var before := db.proposals;
    id := CreateProposal(db, rfpId, vendorId, body, attachments, data);
    RecordScore(db, id, scores);
    assert db.proposals == before[id := Proposal(rfpId, vendorId, body, attachments, data, Some(scores), Evaluated)];
    LinkProposal(db, id, before);
    if UniquePairsOf(before) && PairOf(db.proposals[id]) !in PairsOf(before) {
      UniqueAfterInsert(before, id, db.proposals[id]);
    }
  }

  /**
   * createFromEmail: on success the new proposal is stored evaluated with its score
   * and is listed once more on its RFP (now "responses received") and its vendor;
   * on any error nothing in the store changes.
   */
  method CreateFromEmail(db: Database, mail: InboundMail, rfpId: RfpId, vendorId: VendorId,
                         llm: string -> Option<ParsedProposal>)
    returns (r: Result<ProposalId, Error>)
    requires db.Valid()
    modifies db
    ensures db.Valid()
    ensures var e := IngestError(old(db.rfps), old(db.vendors), mail, rfpId, vendorId, llm);
      && (r.Failure? <==> e.Some?)
      && (r.Failure? ==> r.error == e.value)
    ensures r.Failure? ==> unchanged(db)
    ensures r.Success? ==>
      && r.value == old(db.nextProposalId) && r.value !in old(db.proposals)
      && db.State() == Ingested(old(db.State()), mail, rfpId, vendorId, llm)
      && multiset(db.rfps[rfpId].proposals)[r.value] == 1
      && multiset(db.vendors[vendorId].previousProposals)[r.value] == 1
    ensures old(db.Complete()) ==> db.Complete()
    ensures old(db.UniquePairs()) && (rfpId, vendorId) !in old(db.Pairs()) ==> db.UniquePairs()
  {
    if vendorId !in db.vendors {
      return Failure(VendorNotFound(vendorId));
    }
    var body := MailBody(mail);
    var attachments := MailAttachments(mail);
    var content := ExtractEmailContent(body, attachments);
    var parsed := UseAIToParseProposal(content, llm);
    if parsed.Failure? {
      return Failure(parsed.error);
    }
    var data := parsed.value;
    if rfpId !in db.rfps {
      return Failure(RfpNotFound(rfpId));
    }
    var rfp := db.rfps[rfpId];
    if !Scorable(rfp.specifications, data) {
      return Failure(ScoreNotFinite);
    }
    var scores := ScoreProposal(rfp.specifications, data);
    var id := RecordProposal(db, rfpId, vendorId, body, attachments, data, scores);
    r := Success(id);
  }

  /** Appending a stored id to its own RFP and vendor keeps every listed id pointing at its owner. */
  lemma ReferencedAfterLinking(proposals: map<ProposalId, Proposal>, before: map<ProposalId, Proposal>,
                               rfps: map<RfpId, Rfp>, rfps0: map<RfpId, Rfp>,
                               vendors: map<VendorId, Vendor>, vendors0: map<VendorId, Vendor>,
                               id: ProposalId, rfpId: RfpId, vendorId: VendorId, next: nat)
    requires ReferencedIn(before, rfps0, vendors0, id) && next == id + 1
    requires proposals.Keys == before.Keys + {id}
    requires id in proposals && proposals[id].rfpId == rfpId && proposals[id].vendorId == vendorId
    requires forall p :: p in before ==> proposals[p] == before[p]
    requires rfpId in rfps0
    requires rfps == rfps0[rfpId := rfps0[rfpId].(proposals := rfps0[rfpId].proposals + [id], status := ResponsesReceived)]
    requires vendorId in vendors0
    requires vendors == vendors0[vendorId := vendors0[vendorId].(previousProposals := vendors0[vendorId].previousProposals + [id])]
    ensures ReferencedIn(proposals, rfps, vendors, next)
  {
  }

  /** Appending a fresh id to its own RFP and vendor lists it there, without repeats. */
  lemma ListedAfterLinking(proposals: map<ProposalId, Proposal>, before: map<ProposalId, Proposal>,
                           rfps: map<RfpId, Rfp>, rfps0: map<RfpId, Rfp>,
                           vendors: map<VendorId, Vendor>, vendors0: map<VendorId, Vendor>,
                           id: ProposalId, rfpId: RfpId, vendorId: VendorId)
    requires id !in before && proposals.Keys == before.Keys + {id}
    requires id in proposals && proposals[id].rfpId == rfpId && proposals[id].vendorId == vendorId
    requires forall p :: p in before ==> proposals[p] == before[p]
    requires rfpId in rfps0 && id !in rfps0[rfpId].proposals
    requires rfps == rfps0[rfpId := rfps0[rfpId].(proposals := rfps0[rfpId].proposals + [id], status := ResponsesReceived)]
    requires vendorId in vendors0 && id !in vendors0[vendorId].previousProposals
    requires vendors == vendors0[vendorId := vendors0[vendorId].(previousProposals := vendors0[vendorId].previousProposals + [id])]
    requires ListedIn(before, rfps0, vendors0)
    ensures ListedIn(proposals, rfps, vendors)
  {
    DistinctSnoc(rfps0[rfpId].proposals, id);
    DistinctSnoc(vendors0[vendorId].previousProposals, id);
  }

  /** Appending a fresh id to its own RFP and vendor keeps every stored proposal listed. */
  lemma CompleteAfterLinking(proposals: map<ProposalId, Proposal>, before: map<ProposalId, Proposal>,
                             rfps: map<RfpId, Rfp>, rfps0: map<RfpId, Rfp>,
                             vendors: map<VendorId, Vendor>, vendors0: map<VendorId, Vendor>,
                             id: ProposalId, rfpId: RfpId, vendorId: VendorId)
    requires proposals.Keys == before.Keys + {id}
    requires id in proposals && proposals[id].rfpId == rfpId && proposals[id].vendorId == vendorId
    requires forall p :: p in before ==> proposals[p] == before[p]
    requires rfpId in rfps0
    requires rfps == rfps0[rfpId := rfps0[rfpId].(proposals := rfps0[rfpId].proposals + [id], status := ResponsesReceived)]
    requires vendorId in vendors0
    requires vendors == vendors0[vendorId := vendors0[vendorId].(previousProposals := vendors0[vendorId].previousProposals + [id])]
    requires CompleteIn(before, rfps0, vendors0)
    ensures CompleteIn(proposals, rfps, vendors)
  {
  }
}
