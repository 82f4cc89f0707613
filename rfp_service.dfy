/**
 * RFP creation from a natural-language request and the vendor update made when
 * an RFP is sent. With the status change a new proposal makes, these are the
 * RFP's status lifecycle: created as draft, set to sent whenever vendors are
 * assigned, set to responses received when a proposal arrives.
 */
module RfpService {
  import opened Wrappers
  import opened Model
  import opened Db

  /** The user prompt that carries the request to the language model. */
  function RfpPrompt(userInput: string): string {
    "Parse this procurement request: \"" + userInput + "\""
  }

  /** parseNaturalLanguageToJSON: a reply that is not JSON becomes an error. */
  function ParseNaturalLanguageToJson(userInput: string, llm: string -> Option<Specifications>): (r: Result<Specifications, Error>)
    ensures r.Success? <==> llm(RfpPrompt(userInput)).Some?
    ensures r.Success? ==> r.value == llm(RfpPrompt(userInput)).value
    ensures r.Failure? ==> r.error == RfpParseFailed
  {
    match llm(RfpPrompt(userInput))
    case Some(spec) => Success(spec)
    case None => Failure(RfpParseFailed)
  }

  /** The record createFromNaturalLanguage builds from the request and its parse. */
  function NewRfp(userInput: string, spec: Specifications): (rfp: Rfp)
    ensures spec.title.Some? && spec.title.value != "" ==> rfp.title == spec.title.value
    ensures spec.title.None? || spec.title.value == "" ==> rfp.title == "Procurement Request"
    ensures rfp.description == userInput && rfp.specifications == spec && rfp.status == Draft
    ensures rfp.vendors == [] && rfp.proposals == []
  {
    Rfp(OrDefault(spec.title, "Procurement Request"), userInput, spec, Draft, [], [])
  }

  /**
   * createFromNaturalLanguage: parse, build, save under `newId`, the id the new
   * document is given. The parse comes first, so a failed parse saves nothing;
   * saving under an id already taken fails as a duplicate key.
   */
  method CreateFromNaturalLanguage(db: Database, userInput: string, llm: string -> Option<Specifications>, newId: RfpId)
    returns (r: Result<Rfp, Error>)
    requires db.Valid()
    modifies db
    ensures db.Valid()
    ensures old(db.Complete()) ==> db.Complete()
    ensures old(db.UniquePairs()) ==> db.UniquePairs()
    ensures llm(RfpPrompt(userInput)).None? ==> r == Failure(RfpParseFailed)
    ensures llm(RfpPrompt(userInput)).Some? && newId in old(db.rfps) ==> r == Failure(DuplicateKey)
    ensures llm(RfpPrompt(userInput)).Some? && newId !in old(db.rfps) ==> r.Success?
    ensures r.Failure? ==> unchanged(db)
    ensures r.Success? ==>
      && llm(RfpPrompt(userInput)).Some? && newId !in old(db.rfps)
      && r.value == NewRfp(userInput, llm(RfpPrompt(userInput)).value)
      && db.rfps == old(db.rfps)[newId := r.value]
      && db.vendors == old(db.vendors) && db.proposals == old(db.proposals)
      && db.nextProposalId == old(db.nextProposalId)
  {
    var parsed := ParseNaturalLanguageToJson(userInput, llm);
    if parsed.Failure? {
      return Failure(parsed.error);
    }
    var rfp := NewRfp(userInput, parsed.value);
    if newId in db.rfps {
      return Failure(DuplicateKey);
    }
    db.rfps := db.rfps[newId := rfp];
    r := Success(rfp);
  }

  /**
   * updateRFPVendors: the stored RFP with its vendor list replaced by exactly
   * `vendorIds` and its status set to sent, whatever it was; None when there is
   * no RFP with that id.
   */
  method UpdateRfpVendors(db: Database, id: RfpId, vendorIds: seq<VendorId>) returns (r: Option<Rfp>)
    requires db.Valid()
    modifies db
    ensures db.Valid()
    ensures old(db.Complete()) ==> db.Complete()
    ensures old(db.UniquePairs()) ==> db.UniquePairs()
    ensures id !in old(db.rfps) ==> r == None && unchanged(db)
    ensures id in old(db.rfps) ==>
      && r == Some(old(db.rfps)[id].(vendors := vendorIds, status := Sent))
      && db.rfps == old(db.rfps)[id := r.value]
      && db.vendors == old(db.vendors) && db.proposals == old(db.proposals)
      && db.nextProposalId == old(db.nextProposalId)
  {
    if id !in db.rfps {
      return None;
    }
    var rfp := db.rfps[id].(vendors := vendorIds, status := Sent);
    db.rfps := db.rfps[id := rfp];
    r := Some(rfp);
  }
}
