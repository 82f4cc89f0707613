/**
 * Sending an RFP to its vendors: the email body's item list and filled-in
 * defaults, and the per-vendor send loop that records each outcome.
 */
module Outbound {
  import opened Wrappers
  import opened Text
  import opened Model
  import opened Correlation

  // ------------------------------------------------------------ item list

  function SpecHtml(entry: (string, string)): string {
    "<li>" + entry.0 + ": " + entry.1 + "</li>"
  }

  function SpecFragments(entries: seq<(string, string)>): seq<string> {
    seq(|entries|, k requires 0 <= k < |entries| => SpecHtml(entries[k]))
  }

  function ItemHead(item: Item): string {
    "<li><strong>" + item.name + "</strong> (Qty: " + IntToString(item.quantity) + ")"
  }

  /** One item: its name and quantity, then a nested list of its specs when it has any. */
  function ItemHtml(item: Item): string {
    ItemHead(item)
      + (if item.specs.Some? then "<ul>" + Concat(SpecFragments(item.specs.value)) + "</ul>" else "")
      + "</li>"
  }

  function ItemFragments(items: seq<Item>): seq<string> {
    seq(|items|, k requires 0 <= k < |items| => ItemHtml(items[k]))
  }

  /** The item list: one fragment per item, in order, inside a `<ul>`. */
  function ItemsHtml(items: Option<seq<Item>>): string {
    "<ul>" + (if items.Some? then Concat(ItemFragments(items.value)) else "") + "</ul>"
  }

  lemma SpecFragmentsStep(entries: seq<(string, string)>, j: nat)
    requires j < |entries|
    ensures Concat(SpecFragments(entries[..j + 1])) == Concat(SpecFragments(entries[..j])) + SpecHtml(entries[j])
  {
    assert SpecFragments(entries[..j + 1]) == SpecFragments(entries[..j]) + [SpecHtml(entries[j])];
    ConcatSnoc(SpecFragments(entries[..j]), SpecHtml(entries[j]));
  }

  lemma ItemFragmentsStep(items: seq<Item>, i: nat)
    requires i < |items|
    ensures Concat(ItemFragments(items[..i + 1])) == Concat(ItemFragments(items[..i])) + ItemHtml(items[i])
  {
    assert ItemFragments(items[..i + 1]) == ItemFragments(items[..i]) + [ItemHtml(items[i])];
    ConcatSnoc(ItemFragments(items[..i]), ItemHtml(items[i]));
  }

  lemma AppendStep(html: string, prev: string, out: string, items: seq<Item>, i: nat)
    requires i < |items|
    requires prev == html + Concat(ItemFragments(items[..i]))
    requires out == prev + ItemHtml(items[i])
    ensures out == html + Concat(ItemFragments(items[..i + 1]))
  {
    ItemFragmentsStep(items, i);
    AppendTwice(html, Concat(ItemFragments(items[..i])), ItemHtml(items[i]));
  }

  /** The nested list of one item's specs. */
  method BuildSpecsHtml(entries: seq<(string, string)>) returns (html: string)
    ensures html == "<ul>" + Concat(SpecFragments(entries)) + "</ul>"
  {
    html := "<ul>";
    for j := 0 to |entries|
      invariant html == "<ul>" + Concat(SpecFragments(entries[..j]))
    {
      html := html + "<li>" + entries[j].0 + ": " + entries[j].1 + "</li>";
      SpecFragmentsStep(entries, j);
    }
    assert entries[..|entries|] == entries;
    html := html + "</ul>";
  }

  /** The body of the per-item callback: appends one item's fragment. */
  method AppendItem(html: string, item: Item) returns (out: string)
    ensures out == html + ItemHtml(item)
  {
    out := html + "<li><strong>" + item.name + "</strong> (Qty: " + IntToString(item.quantity) + ")";
    assert out == html + ItemHead(item);
    if item.specs.Some? {
      var specs := BuildSpecsHtml(item.specs.value);
      out := out + specs;
    }
    out := out + "</li>";
  }

  /** The `itemsHTML` built by the nested loops of generateRFPEmailBody. */
  method BuildItemsHtml(items: Option<seq<Item>>) returns (html: string)
    ensures html == ItemsHtml(items)
    ensures items.None? ==> html == "<ul></ul>"
  {
    html := "<ul>";
    if items.Some? {
      html := AppendItems(html, items.value);
    }
    html := html + "</ul>";
  }

  /** The `forEach` over the items. */
  method AppendItems(html: string, items: seq<Item>) returns (out: string)
    ensures out == html + Concat(ItemFragments(items))
  {
    out := html;
    for i := 0 to |items|
      invariant out == html + Concat(ItemFragments(items[..i]))
    {
      ghost var prev := out;
      out := AppendItem(out, items[i]);
      AppendStep(html, prev, out, items, i);
    }
    assert items[..|items|] == items;
  }

  // ------------------------------------------------------------ email body

  /**
   * The values the email body shows. The surrounding HTML and CSS is fixed
   * text and is not modelled.
   */
  datatype RfpEmail = RfpEmail(
    title: string,
    itemsHtml: string,
    currency: string,
    budgetTotal: string,
    deadline: string,
    leadTime: string,
    netDays: string,
    warrantyMonths: string,
    coverage: string,
    submitBy: string)

  /** `n || d` on a number that may be absent: absent and 0 are falsy. */
  function NumberOr(n: Option<int>, d: int): int {
    if n.Some? && n.value != 0 then n.value else d
  }

  /** `${n || d}` where the default is text. */
  function NumberOrText(n: Option<int>, d: string): string {
    if n.Some? && n.value != 0 then IntToString(n.value) else d
  }

  /** The values of the body of an RFP email, with the defaults for absent or falsy terms. */
  function EmailFields(rfp: Rfp, itemsHtml: string, fmt: NumberFormat): (e: RfpEmail)
    ensures var b := rfp.specifications.budget;
      && (b.None? ==> e.currency == "USD" && e.budgetTotal == "N/A")
      && (b.Some? ==> e.currency == OrDefault(b.value.currency, "USD"))
      && (b.Some? && b.value.total.None? ==> e.budgetTotal == "N/A")
    ensures var d := rfp.specifications.deliveryTerms;
      var given := d.Some? && d.value.deadline.Some? && d.value.deadline.value != "";
      && (given ==> e.deadline == d.value.deadline.value && e.submitBy == d.value.deadline.value)
      && (!given ==> e.deadline == "TBD" && e.submitBy == "the specified date")
    ensures var d := rfp.specifications.deliveryTerms;
      var given := d.Some? && d.value.leadTimeDays.Some? && d.value.leadTimeDays.value != 0;
      && (given ==> e.leadTime == IntToString(d.value.leadTimeDays.value))
      && (!given ==> e.leadTime == "N/A")
    ensures var p := rfp.specifications.paymentTerms;
      var given := p.Some? && p.value.netDays.Some? && p.value.netDays.value != 0;
      && (given ==> e.netDays == IntToString(p.value.netDays.value))
      && (!given ==> e.netDays == IntToString(30))
    ensures var w := rfp.specifications.warranty;
      var given := w.Some? && w.value.period.Some? && w.value.period.value != 0;
      && (given ==> e.warrantyMonths == IntToString(w.value.period.value))
      && (!given ==> e.warrantyMonths == IntToString(12))
    ensures var w := rfp.specifications.warranty;
      var given := w.Some? && w.value.coverage.Some? && w.value.coverage.value != "";
      && (given ==> e.coverage == w.value.coverage.value)
      && (!given ==> e.coverage == "hardware coverage")
  {
    var spec := rfp.specifications;
    RfpEmail(
      rfp.title,
      itemsHtml,
      if spec.budget.Some? then OrDefault(spec.budget.value.currency, "USD") else "USD",
      if spec.budget.Some? && spec.budget.value.total.Some?
      then OrDefault(Some(fmt.locale(spec.budget.value.total.value)), "N/A") else "N/A",
      if spec.deliveryTerms.Some? then OrDefault(spec.deliveryTerms.value.deadline, "TBD") else "TBD",
      if spec.deliveryTerms.Some? then NumberOrText(spec.deliveryTerms.value.leadTimeDays, "N/A") else "N/A",
      IntToString(if spec.paymentTerms.Some? then NumberOr(spec.paymentTerms.value.netDays, 30) else 30),
      IntToString(if spec.warranty.Some? then NumberOr(spec.warranty.value.period, 12) else 12),
      if spec.warranty.Some? then OrDefault(spec.warranty.value.coverage, "hardware coverage") else "hardware coverage",
      if spec.deliveryTerms.Some? then OrDefault(spec.deliveryTerms.value.deadline, "the specified date") else "the specified date")
  }

  /**
   * Read back with parseInt, the number fields give the terms' values, or the
   * defaults 30 and 12 where those are absent or 0.
   */
  lemma EmailNumbersReadBack(rfp: Rfp, itemsHtml: string, fmt: NumberFormat)
    ensures var e, spec := EmailFields(rfp, itemsHtml, fmt), rfp.specifications;
      && ParseInt(e.netDays) == Some(if spec.paymentTerms.Some? then NumberOr(spec.paymentTerms.value.netDays, 30) else 30)
      && ParseInt(e.warrantyMonths) == Some(if spec.warranty.Some? then NumberOr(spec.warranty.value.period, 12) else 12)
      && (e.leadTime != "N/A" ==> ParseInt(e.leadTime) == Some(spec.deliveryTerms.value.leadTimeDays.value))
  {
    var e, spec := EmailFields(rfp, itemsHtml, fmt), rfp.specifications;
    ParseIntOfIntToString(if spec.paymentTerms.Some? then NumberOr(spec.paymentTerms.value.netDays, 30) else 30);
    ParseIntOfIntToString(if spec.warranty.Some? then NumberOr(spec.warranty.value.period, 12) else 12);
    if e.leadTime != "N/A" {
      ParseIntOfIntToString(spec.deliveryTerms.value.leadTimeDays.value);
    }
  }

  /** generateRFPEmailBody: the item list and the filled-in values. */
  method GenerateRfpEmailBody(rfp: Rfp, fmt: NumberFormat) returns (body: RfpEmail)
    ensures body == EmailFields(rfp, ItemsHtml(rfp.specifications.items), fmt)
  {
    var itemsHtml := BuildItemsHtml(rfp.specifications.items);
    body := EmailFields(rfp, itemsHtml, fmt);
  }

  // ------------------------------------------------------------- sending

  datatype SendStatus = StatusSent | StatusFailed {
    function Text(): string {
      match this
      case StatusSent => "sent"
      case StatusFailed => "failed"
    }
  }

  datatype SendResult = SendResult(vendorId: VendorId, email: string, status: SendStatus, error: Option<string>)

  /**
   * The mail transport: given the recipient, the subject and the body, the
   * message of the error sending raised, or None when the mail went out.
   */
  type Transport = (string, string, RfpEmail) -> Option<string>

  /** The record kept for one vendor. */
  function SendOutcome(rfpId: RfpId, rfp: Rfp, vendorId: VendorId, vendor: Vendor,
                       transport: Transport, fmt: NumberFormat): (r: SendResult)
    ensures r.vendorId == vendorId && r.email == vendor.email
    ensures var err := transport(vendor.email, Subject(rfp.title, rfpId), EmailFields(rfp, ItemsHtml(rfp.specifications.items), fmt));
      && (r.status == StatusFailed <==> err.Some?)
      && r.error == err
  {
    var body := EmailFields(rfp, ItemsHtml(rfp.specifications.items), fmt);
    match transport(vendor.email, Subject(rfp.title, rfpId), body)
    case None => SendResult(vendorId, vendor.email, StatusSent, None)
    case Some(message) => SendResult(vendorId, vendor.email, StatusFailed, Some(message))
  }

  /** The body of the loop in sendRFPToVendors: build the email, send it, record the outcome. */
  method SendToVendor(rfpId: RfpId, rfp: Rfp, vendorId: VendorId, vendor: Vendor,
                      transport: Transport, fmt: NumberFormat)
    returns (result: SendResult)
    ensures result == SendOutcome(rfpId, rfp, vendorId, vendor, transport, fmt)
  {
    var body := GenerateRfpEmailBody(rfp, fmt);
    var error := transport(vendor.email, Subject(rfp.title, rfpId), body);
    if error.None? {
      result := SendResult(vendorId, vendor.email, StatusSent, None);
    } else {
      result := SendResult(vendorId, vendor.email, StatusFailed, Some(error.value));
    }
  }

  /**
   * sendRFPToVendors: one result per vendor, in the vendors' order; a failed
   * send is recorded and the loop goes on, so the method itself never fails.
   */
  method SendRfpToVendors(rfpId: RfpId, rfp: Rfp, vendors: seq<(VendorId, Vendor)>,
                          transport: Transport, fmt: NumberFormat)
    returns (results: seq<SendResult>)
    ensures |results| == |vendors|
    ensures forall i :: 0 <= i < |vendors| ==>
      results[i] == SendOutcome(rfpId, rfp, vendors[i].0, vendors[i].1, transport, fmt)
  {
    results := [];
    for i := 0 to |vendors|
      invariant |results| == i
      invariant forall k :: 0 <= k < i ==>
        results[k] == SendOutcome(rfpId, rfp, vendors[k].0, vendors[k].1, transport, fmt)
    {
      var result := SendToVendor(rfpId, rfp, vendors[i].0, vendors[i].1, transport, fmt);
      results := results + [result];
    }
  }
}
