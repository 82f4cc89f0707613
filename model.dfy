/**
 * The records the services read and write: an RFP with the specifications the
 * RFP extractor produces, a vendor, and a proposal with the data the proposal
 * extractor produces and the score record attached to it at creation.
 * A field the source reads through `?.` or `||` is an Option; JSON numbers
 * that the source only compares or divides are reals, counts and day numbers
 * that it renders in text are integers.
 */
module Model {
  import opened Wrappers

  /** RFP and vendor identifiers are document ids (24 hexadecimal characters for an RFP). */
  type RfpId = string
  type VendorId = string
  /** Proposal identifiers are handed out by the store in creation order. */
  type ProposalId = nat

  // ------------------------------------------------------------------ RFP

  datatype Item = Item(name: string, quantity: int, specs: Option<seq<(string, string)>>)
  datatype Budget = Budget(total: Option<real>, currency: Option<string>)
  datatype DeliveryTerms = DeliveryTerms(deadline: Option<string>, leadTimeDays: Option<int>, location: Option<string>)
  datatype PaymentTerms = PaymentTerms(netDays: Option<int>, milestone: Option<string>)
  datatype WarrantyTerms = WarrantyTerms(period: Option<int>, coverage: Option<string>)

  /** The structured RFP the language model returns for a natural-language request. */
  datatype Specifications = Specifications(
    title: Option<string>,
    items: Option<seq<Item>>,
    budget: Option<Budget>,
    deliveryTerms: Option<DeliveryTerms>,
    paymentTerms: Option<PaymentTerms>,
    warranty: Option<WarrantyTerms>)

  datatype RfpStatus = Draft | Sent | ResponsesReceived

  datatype Rfp = Rfp(
    title: string,
    description: string,
    specifications: Specifications,
    status: RfpStatus,
    vendors: seq<VendorId>,
    proposals: seq<ProposalId>)

  // --------------------------------------------------------------- vendor

  datatype Vendor = Vendor(name: string, email: string, previousProposals: seq<ProposalId>)

  // ------------------------------------------------------------- proposal

  /** A mail attachment as the MIME parser delivers it; `content` is its text. */
  datatype Attachment = Attachment(filename: Option<string>, contentType: string, content: string)

  datatype PriceLine = PriceLine(itemName: string, quantity: int, unitPrice: real, subtotal: real, currency: Option<string>)
  datatype Pricing = Pricing(breakdown: Option<seq<PriceLine>>, totalPrice: Option<real>, discounts: Option<string>, currency: string)
  datatype DeliveryDetails = DeliveryDetails(estimatedDate: Option<string>, leadTime: Option<string>, shippingCost: Option<real>, conditions: Option<string>)
  datatype Terms = Terms(paymentTerms: Option<string>, warranty: Option<string>, supportLevel: Option<string>, sla: Option<string>)
  datatype Compliance = Compliance(specsMatched: Option<seq<string>>, specsNotMatched: Option<seq<string>>, additionalOfferings: Option<seq<string>>)

  /** The structured proposal the language model returns for a vendor's email. */
  datatype ParsedProposal = ParsedProposal(pricing: Pricing, deliveryDetails: DeliveryDetails, terms: Terms, compliance: Compliance)

  /** The score record stored on a proposal: rounded sub-scores, rounded overall and a text summary. */
  datatype ScoreRecord = ScoreRecord(
    priceScore: int, deliveryScore: int, complianceScore: int, supportScore: int,
    overall: int, reasoning: string)

  datatype ProposalStatus = Parsed | Evaluated

  datatype Proposal = Proposal(
    rfpId: RfpId,
    vendorId: VendorId,
    rawEmailBody: string,
    rawAttachments: seq<Attachment>,
    parsedData: ParsedProposal,
    scoredByAI: Option<ScoreRecord>,
    status: ProposalStatus)

  // ----------------------------------------------------------- inbound mail

  /** A received message after MIME parsing: the fields the services read. */
  datatype InboundMail = InboundMail(
    fromAddress: Option<string>,
    fromText: Option<string>,
    subject: Option<string>,
    text: Option<string>,
    html: Option<string>,
    attachments: Option<seq<Attachment>>)

  /**
   * How a JavaScript number is turned into text: `${x}` and `x.toLocaleString()`.
   * Both are locale- and floating-point-dependent and are not modelled.
   */
  datatype NumberFormat = NumberFormat(plain: real -> string, locale: real -> string)

  // --------------------------------------------------------------- errors

  /** The errors the services throw, each with the message the source gives it. */
  datatype Error =
    | VendorNotFound(vendorId: VendorId)
    | RfpNotFound(rfpId: RfpId)
    | ProposalParseFailed
    | RfpParseFailed
    | NoProposals
    | ScoreNotFinite
    | DuplicateKey
    | NullRfp
    | MailParseFailed
    | UndefinedRead(property: string)
  {
    function Message(): string {
      match this
      case VendorNotFound(v) => "Vendor not found for ID: " + v
      case RfpNotFound(r) => "RFP " + r + " not found"
      case ProposalParseFailed => "Failed to parse proposal data"
      case RfpParseFailed => "Failed to structure the RFP from your input. Try again."
      case NoProposals => "No proposals found for this RFP"
      case ScoreNotFinite => "Score is not a finite number"
      case DuplicateKey => "Duplicate document id"
      case NullRfp => "Cannot read properties of null (reading 'specifications')"
      case MailParseFailed => "Message could not be parsed"
      case UndefinedRead(p) => "Cannot read properties of undefined (reading '" + p + "')"
    }
  }

  /** JavaScript `a || b` on optional strings: the first non-empty one, else "". */
  function FirstTruthy(a: Option<string>, b: Option<string>): string {
    if a.Some? && a.value != "" then a.value else if b.Some? then b.value else ""
  }

  /** JavaScript `s || d` on an optional string. */
  function OrDefault(s: Option<string>, d: string): string {
    if s.Some? && s.value != "" then s.value else d
  }

  /** `${s}` for a value that may be undefined. */
  function OrUndefined(s: Option<string>): string {
    if s.Some? then s.value else "undefined"
  }
}
