/**
 The purchase invoice form: the item table edited through the line editor,
 the derived totals (net amount, discount, balance) the page recomputes after
 every change, and the request body it posts to `/purchases`.
 */
module PurchaseForm {
  import opened JsValues
  import LineEditor

  /** One row of the item table. Every field holds the text of its input, as
      the DOM hands it over; `netAmount` is created blank and never edited. */
  datatype PurchaseLine = PurchaseLine(itemName: string, qty: string, purchaseRate: string,
                                       saleRate: string, netAmount: string, description: string)

  /** The row "Add Item" appends. */
  const BlankLine := PurchaseLine("", "", "", "", "", "")

  /** The change handlers of the five editable cells of a row. */
  datatype LineEdit =
    | SetItemName(name: string)
    | SetQty(qty: string)
    | SetPurchaseRate(rate: string)
    | SetSaleRate(rate: string)
    | SetDescription(text: string)

  /** The header fields the form library collects; blank inputs are "". */
  datatype Header = Header(purchaseNo: string, supplierName: string, discountPercentage: string,
                           payment: string, billRemarks: string)

  /** Assigns the one field an edit names. */
  function ApplyEdit(line: PurchaseLine, e: LineEdit): (r: PurchaseLine)
    ensures e.SetItemName? ==> r == line.(itemName := e.name)
    ensures e.SetQty? ==> r == line.(qty := e.qty)
    ensures e.SetPurchaseRate? ==> r == line.(purchaseRate := e.rate)
    ensures e.SetSaleRate? ==> r == line.(saleRate := e.rate)
    ensures e.SetDescription? ==> r == line.(description := e.text)
  {
    match e
    case SetItemName(v) => PurchaseLine(v, line.qty, line.purchaseRate, line.saleRate, line.netAmount, line.description)
    case SetQty(v) => PurchaseLine(line.itemName, v, line.purchaseRate, line.saleRate, line.netAmount, line.description)
    case SetPurchaseRate(v) => PurchaseLine(line.itemName, line.qty, v, line.saleRate, line.netAmount, line.description)
    case SetSaleRate(v) => PurchaseLine(line.itemName, line.qty, line.purchaseRate, v, line.netAmount, line.description)
    case SetDescription(v) => PurchaseLine(line.itemName, line.qty, line.purchaseRate, line.saleRate, line.netAmount, v)
  }

  // ---------------------------------------------------------------------------
  // Totals

  /** A line's share of the net amount: `(parseFloat(qty) || 0) * (parseFloat(purchaseRate) || 0)`. */
  function LineAmount(line: PurchaseLine): real {
    Or0(ParseFloat(line.qty)) * Or0(ParseFloat(line.purchaseRate))
  }

  /** The net amount, computed as the page does, by a left fold from 0. */
  function NetAmount(lines: seq<PurchaseLine>): (net: real)
    ensures net == LineEditor.Sum(lines, LineAmount)
    ensures lines == [] ==> net == 0.0
  {
    LineEditor.ReduceIsSum(lines, LineAmount, 0.0);
    LineEditor.Reduce(lines, LineAmount, 0.0)
  }

  /** A watched header field as the totals effect reads it: `watch(f) || 0`
      turns a blank field into the number 0, which `parseFloat` reads as 0. */
  function Watched(field: string): Num {
    if field == "" then Real(0.0) else ParseFloat(field)
  }

  datatype Totals = Totals(net: real, discount: Num, balance: Num)

  /** The arithmetic of the totals effect on values already read:
      `net * pct / 100` and `net - discount - payment`, NaN spreading through both. */
  function TotalsOf(net: real, pct: Num, payment: Num): (t: Totals)
    ensures t.net == net
    ensures t.discount.Real? <==> pct.Real?
    ensures t.discount.Real? ==> t.discount.r * 100.0 == net * pct.r
    ensures t.balance.Real? <==> pct.Real? && payment.Real?
    ensures t.balance.Real? ==> t.balance.r + t.discount.r + payment.r == net
  {
    var discount := if pct.Real? then Real(net * pct.r / 100.0) else NaN;
    Totals(net, discount, Sub(Sub(Real(net), discount), payment))
  }

  /** The totals effect, run after every change to the lines, the discount
      percentage or the payment. */
  function ComputeTotals(lines: seq<PurchaseLine>, discountPercentage: string, payment: string): (t: Totals)
    ensures t == TotalsOf(LineEditor.Sum(lines, LineAmount), Watched(discountPercentage), Watched(payment))
  {
    TotalsOf(NetAmount(lines), Watched(discountPercentage), Watched(payment))
  }

  /** With no lines and blank header fields every total is 0. */
  lemma EmptyTotals()
    ensures ComputeTotals([], "", "") == Totals(0.0, Real(0.0), Real(0.0))
  {
  }

  /** One line of 2 at rate 10, a 10% discount and a payment of 5 give net 20,
      discount 2 and balance 13. */
  lemma ExampleTotals()
    ensures ComputeTotals([PurchaseLine("", "2", "10", "", "", "")], "10", "5")
            == Totals(20.0, Real(2.0), Real(13.0))
  {
    var line := PurchaseLine("", "2", "10", "", "", "");
    RenderNatRoundTrip(2);
    RenderNatRoundTrip(10);
    RenderNatRoundTrip(5);
    assert RenderNat(2) == "2" && RenderNat(10) == "10" && RenderNat(5) == "5";
    assert Watched("10") == Real(10.0) && Watched("5") == Real(5.0);
    assert LineAmount(line) == 20.0;
    assert LineEditor.Sum([line], LineAmount) == 20.0 by {
      assert LineEditor.Sum([line], LineAmount) == LineAmount(line) + LineEditor.Sum([], LineAmount);
    }
  }

  // ---------------------------------------------------------------------------
  // Editor operations and how the net amount follows them

  /** "Add Item": one blank row at the end; the net amount does not move. */
  function AddItem(lines: seq<PurchaseLine>): (r: seq<PurchaseLine>)
    ensures |r| == |lines| + 1 && r[..|lines|] == lines && r[|lines|] == BlankLine
    ensures NetAmount(r) == NetAmount(lines)
  {
    LineEditor.SumAppend(lines, BlankLine, LineAmount);
    LineEditor.Append(lines, BlankLine)
  }

  /** "Remove": row `i` goes, the others keep their order, and its amount
      leaves the net amount. */
  function RemoveItem(lines: seq<PurchaseLine>, i: nat): (r: seq<PurchaseLine>)
    ensures i < |lines| ==> |r| == |lines| - 1 && NetAmount(r) == NetAmount(lines) - LineAmount(lines[i])
    ensures i >= |lines| ==> r == lines
    ensures forall k :: 0 <= k < |r| ==> r[k] == (if k < i then lines[k] else lines[k + 1])
  {
    if i < |lines| then
      LineEditor.SumRemoveAt(lines, i, LineAmount);
      LineEditor.RemoveAt(lines, i)
    else
      LineEditor.RemoveAt(lines, i)
  }

  /** A cell's change handler: only the named field of row `i` changes. */
  function EditLine(lines: seq<PurchaseLine>, i: nat, e: LineEdit): (r: seq<PurchaseLine>)
    requires i < |lines|
    ensures |r| == |lines| && r[i] == ApplyEdit(lines[i], e)
    ensures forall k :: 0 <= k < |lines| && k != i ==> r[k] == lines[k]
    ensures NetAmount(r) == NetAmount(lines) - LineAmount(lines[i]) + LineAmount(r[i])
  {
    LineEditor.SumUpdateAt(lines, i, ApplyEdit(lines[i], e), LineAmount);
    LineEditor.UpdateAt(lines, i, ApplyEdit(lines[i], e))
  }

  /** Editing the item name, sale rate or description of a row never moves
      the totals; only quantity and purchase rate feed them. */
  lemma EditOutsideTotals(lines: seq<PurchaseLine>, i: nat, e: LineEdit, discountPercentage: string, payment: string)
    requires i < |lines| && (e.SetItemName? || e.SetSaleRate? || e.SetDescription?)
    ensures ComputeTotals(EditLine(lines, i, e), discountPercentage, payment)
            == ComputeTotals(lines, discountPercentage, payment)
  {
  }

  // ---------------------------------------------------------------------------
  // Request body

  datatype PayloadItem = PayloadItem(itemName: string, qty: Num, purchaseRate: Num, saleRate: Num,
                                     netAmount: Num, description: string)

  datatype Payload = Payload(purchaseNo: string, supplierName: string, discountPercentage: real,
                             discount: Num, netAmount: real, payment: real, billRemarks: string,
                             items: seq<PayloadItem>)

  /** One request row: numbers through `Number(...)`, whose NaN is kept, and
      the row amount `Number(qty) * Number(purchaseRate)`. */
  function ToPayloadItem(line: PurchaseLine): PayloadItem {
    var qty := ToNumber(line.qty);
    var rate := ToNumber(line.purchaseRate);
    PayloadItem(line.itemName, qty, rate, ToNumber(line.saleRate), Mul(qty, rate), line.description)
  }

  /** The body `onSubmit` posts. The discount and net amount are the values
      the totals effect last computed; discount percentage and payment are
      read again with `Number(...) || 0`. */
  function BuildPayload(h: Header, lines: seq<PurchaseLine>): (p: Payload)
    ensures p.purchaseNo == h.purchaseNo && p.supplierName == h.supplierName && p.billRemarks == h.billRemarks
    ensures p.discountPercentage == (if ToNumber(h.discountPercentage).Real? then ToNumber(h.discountPercentage).r else 0.0)
    ensures p.payment == (if ToNumber(h.payment).Real? then ToNumber(h.payment).r else 0.0)
    ensures h.discountPercentage == "" ==> p.discountPercentage == 0.0
    ensures h.payment == "" ==> p.payment == 0.0
    ensures p.netAmount == LineEditor.Sum(lines, LineAmount)
    ensures p.discount == ComputeTotals(lines, h.discountPercentage, h.payment).discount
    ensures |p.items| == |lines| && forall k :: 0 <= k < |lines| ==> p.items[k] == ToPayloadItem(lines[k])
  {
    var t := ComputeTotals(lines, h.discountPercentage, h.payment);
    Payload(h.purchaseNo, h.supplierName, Or0(ToNumber(h.discountPercentage)), t.discount, t.net,
            Or0(ToNumber(h.payment)), h.billRemarks, Map(lines, ToPayloadItem))
  }

  /** A row whose quantity and purchase rate are numbers (or blank) for `Number`. */
  predicate NumericLine(line: PurchaseLine) {
    ToNumber(line.qty).Real? && ToNumber(line.purchaseRate).Real?
  }

  function ItemAmount(item: PayloadItem): real {
    Or0(item.netAmount)
  }

  /** On a numeric row the request row's amount is the amount the totals
      effect counted for it. */
  lemma ItemAmountAgrees(line: PurchaseLine)
    requires NumericLine(line)
    ensures ToPayloadItem(line).netAmount.Real?
    ensures ItemAmount(ToPayloadItem(line)) == LineAmount(line)
  {
    var q := ToNumber(line.qty);
    var p := ToNumber(line.purchaseRate);
    NumberAgreesWithParseFloat(line.qty, q.r);
    NumberAgreesWithParseFloat(line.purchaseRate, p.r);
    ProductAgrees(q, p, ParseFloat(line.qty), ParseFloat(line.purchaseRate));
    assert ToPayloadItem(line).netAmount == Mul(q, p);
    assert LineAmount(line) == Or0(ParseFloat(line.qty)) * Or0(ParseFloat(line.purchaseRate));
  }

  /** `Number(a) * Number(b)` against `(parseFloat(a) || 0) * (parseFloat(b) || 0)`,
      on values already read. */
  lemma ProductAgrees(a: Num, b: Num, x: Num, y: Num)
    requires a.Real? && b.Real? && Or0(x) == a.r && Or0(y) == b.r
    ensures Mul(a, b) == Real(Or0(x) * Or0(y))
  {
  }

  /** When every row holds numbers, the request rows' amounts add up to the
      net amount sent with them, although the two are computed through
      different conversions. */
  lemma PayloadAmountsAddUp(h: Header, lines: seq<PurchaseLine>)
    requires forall k :: 0 <= k < |lines| ==> NumericLine(lines[k])
    ensures var p := BuildPayload(h, lines);
            && (forall k :: 0 <= k < |p.items| ==> p.items[k].netAmount.Real?)
            && LineEditor.Sum(p.items, ItemAmount) == p.netAmount
  {
    var items := Map(lines, ToPayloadItem);
    forall k | 0 <= k < |lines|
      ensures items[k].netAmount.Real? && ItemAmount(items[k]) == LineAmount(lines[k])
    {
      ItemAmountAgrees(lines[k]);
    }
    LineEditor.SumPointwise(items, ItemAmount, lines, LineAmount);
  }

  /** When the discount field holds a number both conversions read, the
      discount sent is that percentage of the net amount sent. */
  lemma PayloadDiscountConsistent(h: Header, lines: seq<PurchaseLine>)
    requires ToNumber(h.discountPercentage).Real? && ParseFloat(h.discountPercentage).Real?
    ensures var p := BuildPayload(h, lines);
            p.discount == Real(p.netAmount * p.discountPercentage / 100.0)
  {
    var p := BuildPayload(h, lines);
    var t := ComputeTotals(lines, h.discountPercentage, h.payment);
    var pct := ToNumber(h.discountPercentage);
    var watched := Watched(h.discountPercentage);
    NumberAgreesWithParseFloat(h.discountPercentage, pct.r);
    assert watched.Real? && watched.r == pct.r;
    assert p.discount == t.discount && p.netAmount == t.net && p.discountPercentage == pct.r;
    DiscountAgrees(t, watched, pct);
  }

  lemma DiscountAgrees(t: Totals, watched: Num, pct: Num)
    requires watched.Real? && pct.Real? && watched.r == pct.r
    requires t.discount.Real? && t.discount.r * 100.0 == t.net * watched.r
    ensures t.discount == Real(t.net * Or0(pct) / 100.0)
  {
  }
}
