/**
 The purchases list page: the Receivable / Payable balance cell, the
 filter-by-id delete, and the purchase slip report built from a purchase's
 details: a header, an items table numbered from 1 with one line per item, a
 payment table whose falsy amounts read "N/A", and an optional total.
 */
module PurchaseView {
  import opened JsValues
  import RecordList
  import opened ReportLayout

  // ---------------------------------------------------------------------------
  // The list

  /** The balance cell: `Receivable: balance` when `balance >= 0`, otherwise
      `Payable: Math.abs(balance)`. */
  datatype BalanceLabel = Receivable(shown: JsValue) | Payable(amount: Num)

  function BalanceLabelOf(balance: JsValue): (l: BalanceLabel)
    ensures l.Receivable? <==> ToNumeric(balance).Real? && ToNumeric(balance).r >= 0.0
    ensures l.Receivable? ==> l.shown == balance
    ensures l.Payable? ==> l.amount == Abs(ToNumeric(balance))
  {
    var b := ToNumeric(balance);
    if b.Real? && b.r >= 0.0 then Receivable(balance) else Payable(Abs(b))
  }

  /** A numeric balance is shown by its magnitude under either label, and
      a payable amount is never zero or negative. */
  lemma BalanceMagnitude(x: real)
    ensures x >= 0.0 ==> BalanceLabelOf(Number(Real(x))) == Receivable(Number(Real(x)))
    ensures x < 0.0 ==> BalanceLabelOf(Number(Real(x))) == Payable(Real(-x))
    ensures BalanceLabelOf(Number(Real(x))).Payable? ==> BalanceLabelOf(Number(Real(x))).amount.r > 0.0
  {
  }

  /** A balance that does not read as a number (a missing field, a
      non-numeric text) is labelled Payable, with a NaN amount. */
  lemma UnreadableBalanceIsPayable(balance: JsValue)
    requires ToNumeric(balance).NaN?
    ensures BalanceLabelOf(balance) == Payable(NaN)
  {
  }

  /** `handleDelete(id)`: a successful request filters the list by id; a
      refused or failed one leaves the page as it was (the page only logs). */
  function HandleDelete(v: RecordList.ListView, id: JsValue, ok: bool): (r: RecordList.ListView)
    ensures ok ==> r.data == RecordList.DeleteById(v.data, id)
    ensures ok ==> forall k :: 0 <= k < |r.data| ==> !StrictEquals(RecordList.Id(r.data[k]), id)
    ensures !ok ==> r == v
    ensures r.open == v.open && r.selected == v.selected
  {
    RecordList.HandleDelete(v, id, if ok then RecordList.Deleted else RecordList.Failed)
  }

  // ---------------------------------------------------------------------------
  // The report

  /** One item of a purchase's details. */
  datatype PurchaseItem = PurchaseItem(itemId: JsValue, qty: JsValue, purchaseRate: JsValue,
                                       saleRate: JsValue, netAmount: JsValue)

  /** A purchase's details, as `GET /purchases/:id` returns them; `items` is
      None when the field is absent or null (`record.items?.forEach`). */
  datatype PurchaseDetail = PurchaseDetail(purchaseNo: JsValue, billNo: JsValue, date: JsValue,
                                           supplier: JsValue, netAmount: JsValue, description: JsValue,
                                           discountPercent: JsValue, discount: JsValue, payment: JsValue,
                                           balance: JsValue, totalAmount: JsValue,
                                           items: Option<seq<PurchaseItem>>)

  function ItemsOf(r: PurchaseDetail): seq<PurchaseItem> {
    if r.items.Some? then r.items.value else []
  }

  /** The items table's headings and the x of each column. */
  const ItemHeads: seq<string> := ["#", "Item ID", "Qty", "P. Rate", "S. Rate", "Net Amount"]
  const ItemColumns: seq<int> := [14, 30, 55, 75, 100, 125]
  const AmountHeads: seq<string> := ["Payment", "Discount", "Balance"]

  /** The sub-header fields below the numbers, one per line. */
  function Detail(r: PurchaseDetail, i: nat): Text {
    match i
    case 0 => LocaleDate("Date: ", r.date)
    case 1 => Template("Supplier: ", r.supplier, "")
    case 2 => Template("Net Amount: ", r.netAmount, "")
    case 3 => Template("Description: ", r.description, "")
    case 4 => Template("Discount Percent: ", r.discountPercent, "")
    case 5 => Template("Discount: ", r.discount, "")
    case 6 => Template("Payment: ", r.payment, "")
    case _ => Template("Balance: ", r.balance, "")
  }

  /** The title and the sub-header: the title centred on line 20, the
      purchase and bill numbers on line 35 at either margin, then the date,
      supplier, net amount, description, discount percentage, discount,
      payment and balance, one per line, 7 apart, down to line 91. */
  function Header(r: PurchaseDetail): (h: seq<Line>)
    ensures |h| == 10
    ensures h[0] == Line(20, [Piece(Plain("Purchase Slip Report"), PageCentre)])
    ensures h[1] == Line(35, [Piece(Template("Purchase No: ", r.purchaseNo, ""), At(14)),
                              Piece(Template("Bill No: ", r.billNo, ""), RightMargin)])
    ensures forall i :: 2 <= i < 10 ==> h[i] == Single(Detail(r, i - 2), 14, 35 + 7 * (i - 1))
    ensures Descending(h) && Above(h, 92)
  {
    [ Line(20, [Piece(Plain("Purchase Slip Report"), PageCentre)]),
      Line(35, [Piece(Template("Purchase No: ", r.purchaseNo, ""), At(14)),
                Piece(Template("Bill No: ", r.billNo, ""), RightMargin)]) ]
    + seq(8, i requires 0 <= i < 8 => Single(Detail(r, i), 14, 42 + 7 * i))
  }

  /** Row `k` of the items table: its number `k + 1`, then the item's fields. */
  function ItemRow(k: nat, item: PurchaseItem): (row: seq<Text>)
    ensures |row| == |ItemColumns|
    ensures row[0] == Cell(Number(Real((k + 1) as real)))
    ensures row[1..] == [Cell(item.itemId), Cell(item.qty), Cell(item.purchaseRate),
                         Cell(item.saleRate), Cell(item.netAmount)]
  {
    [Cell(Number(Real((k + 1) as real))), Cell(item.itemId), Cell(item.qty),
     Cell(item.purchaseRate), Cell(item.saleRate), Cell(item.netAmount)]
  }

  /** The rows of the items table, numbered from 1 in the order of the items. */
  function ItemRows(items: seq<PurchaseItem>): (rows: seq<seq<Text>>)
    ensures |rows| == |items|
    ensures forall k :: 0 <= k < |items| ==> rows[k] == ItemRow(k, items[k])
  {
    seq(|items|, k requires 0 <= k < |items| => ItemRow(k, items[k]))
  }

  /** The one row of the payment table: each amount, or "N/A" when it is falsy. */
  function AmountRow(r: PurchaseDetail): (row: seq<Text>)
    ensures |row| == |AmountHeads|
    ensures Truthy(r.payment) ==> row[0] == Cell(r.payment)
    ensures Truthy(r.discount) ==> row[1] == Cell(r.discount)
    ensures Truthy(r.balance) ==> row[2] == Cell(r.balance)
    ensures !Truthy(r.payment) ==> row[0] == Cell(Str("N/A"))
    ensures !Truthy(r.discount) ==> row[1] == Cell(Str("N/A"))
    ensures !Truthy(r.balance) ==> row[2] == Cell(Str("N/A"))
  {
    [Cell(Or(r.payment, Str("N/A"))), Cell(Or(r.discount, Str("N/A"))), Cell(Or(r.balance, Str("N/A")))]
  }

  /** Each amount on its own: a payment, discount or balance of 0 shows
      "N/A", not 0, in the payment table. */
  lemma ZeroAmountsReadNA(r: PurchaseDetail)
    ensures r.payment == Number(Real(0.0)) ==> AmountRow(r)[0] == Cell(Str("N/A"))
    ensures r.discount == Number(Real(0.0)) ==> AmountRow(r)[1] == Cell(Str("N/A"))
    ensures r.balance == Number(Real(0.0)) ==> AmountRow(r)[2] == Cell(Str("N/A"))
  {
  }

  /** The payment section below an items table whose last row is on line
      `y - 6`: its title 10 below `y`, the headings 5 below that, the amounts
      6 below those, and the total amount, when truthy, 11 below the amounts. */
  function PaymentSection(r: PurchaseDetail, y: int): (s: seq<Line>)
    ensures |s| == 3 + (if Truthy(r.totalAmount) then 1 else 0)
    ensures s[0] == Single(Plain("Payment Details"), 14, y + 10)
    ensures s[1] == Row(Plains(AmountHeads), Spaced(3, 50), y + 15)
    ensures s[2] == Row(AmountRow(r), Spaced(3, 50), y + 21)
    ensures Truthy(r.totalAmount) ==> s[3] == Single(Template("Total Amount: ", r.totalAmount, ""), 14, y + 32)
    ensures Descending(s) && NotAbove(s, y + 10) && Above(s, y + 33)
  {
    [ Single(Plain("Payment Details"), 14, y + 10),
      Row(Plains(AmountHeads), Spaced(3, 50), y + 15),
      Row(AmountRow(r), Spaced(3, 50), y + 21) ]
    + if Truthy(r.totalAmount) then [Single(Template("Total Amount: ", r.totalAmount, ""), 14, y + 32)] else []
  }

  /** `generateReport` once the purchase's details have arrived: the header,
      the column headings on line 105, item `k` on line `111 + 6k` numbered
      `k + 1`, then the payment section below the last item, every line
      below the ones before it. */
  method GenerateReport(r: PurchaseDetail) returns (rep: Report)
    ensures var n := |ItemsOf(r)|;
            |rep.lines| == 14 + n + (if Truthy(r.totalAmount) then 1 else 0)
    ensures rep.lines[..10] == Header(r)
    ensures rep.lines[10] == Row(Plains(ItemHeads), ItemColumns, 105)
    ensures TableAt(rep.lines, 11, ItemRows(ItemsOf(r)), ItemColumns, 111)
    ensures rep.lines[11 + |ItemsOf(r)|..] == PaymentSection(r, 111 + 6 * |ItemsOf(r)|)
    ensures Descending(rep.lines)
    ensures rep.fileName == Template("purchase_report_", r.purchaseNo, ".pdf")
  {
    var items := ItemsOf(r);
    var heads := [Row(Plains(ItemHeads), ItemColumns, 105)];
    var top := Header(r) + heads;
    ConcatDescending(Header(r), heads, 92, 106);
    var rows, y := Table(ItemRows(items), ItemColumns, 111);
    var payment := PaymentSection(r, y);
    ConcatDescending(top, rows, 106, y);
    ConcatDescending(top + rows, payment, y, y + 33);
    TableShift(top, rows, payment, ItemRows(items), ItemColumns, 111);
    var lines := top + rows + payment;
    assert lines[..10] == Header(r);
    assert lines[11 + |items|..] == payment;
    rep := Report(lines, Template("purchase_report_", r.purchaseNo, ".pdf"));
  }
}
