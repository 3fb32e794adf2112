/**
 The sales list page: the filter-by-id delete, and the sales slip report,
 built from the slip last opened in the details dialog: a header, an items
 table numbered from 1, an amounts table with "N/A" for a missing bank or
 account and "Yes" / "No" for the online flag, and the slip's totals.
 */
module SaleView {
  import opened JsValues
  import RecordList
  import opened ReportLayout

  /** One item of a slip's details. */
  datatype SlipItem = SlipItem(itemId: JsValue, previousReading: JsValue, currentReading: JsValue,
                               qty: JsValue, unitRate: JsValue, netAmount: JsValue)

  /** One payment entry of a slip's details. */
  datatype SlipAmount = SlipAmount(accountNumber: JsValue, bankName: JsValue, cashInHand: JsValue,
                                   isOnline: JsValue, timestamp: JsValue)

  /** A slip's details, as `GET /sales/:id` returns them; `items` and
      `amounts` are None when the field is absent or not an array. */
  datatype SaleSlip = SaleSlip(slipNo: JsValue, date: JsValue, salesperson: JsValue, cashier: JsValue,
                               customerId: JsValue, cash: JsValue,
                               items: Option<seq<SlipItem>>, amounts: Option<seq<SlipAmount>>,
                               totalQty: JsValue, totalNetAmount: JsValue, totalBalance: JsValue)

  /** The page: the list, and the slip the details dialog last showed. */
  datatype SaleListView = SaleListView(data: seq<RecordList.Record>, open: bool, selected: Option<SaleSlip>)

  /** `handleDelete(id)`: a successful request filters the list by id; a
      refused or failed one leaves the page as it was (the page only logs). */
  function HandleDelete(v: SaleListView, id: JsValue, ok: bool): (r: SaleListView)
    ensures ok ==> r.data == RecordList.DeleteById(v.data, id)
    ensures ok ==> forall k :: 0 <= k < |r.data| ==> !StrictEquals(RecordList.Id(r.data[k]), id)
    ensures !ok ==> r == v
    ensures r.open == v.open && r.selected == v.selected
  {
    if ok then v.(data := RecordList.DeleteById(v.data, id)) else v
  }

  // ---------------------------------------------------------------------------
  // The report

  /** The items table's headings; its columns are 25 apart. */
  const ItemHeads: seq<string> := ["#", "Item ID", "Prev", "Curr", "Qty", "Rate", "Amount"]
  /** The amounts table's headings; its columns are 35 apart. */
  const AmountHeads: seq<string> := ["Account", "Bank", "Cash", "Online", "Timestamp"]

  /** The sub-header fields below the slip number, one per line. */
  function Detail(slip: SaleSlip, i: nat): Text {
    match i
    case 0 => Template("Salesperson: ", slip.salesperson, "")
    case 1 => Template("Cashier: ", slip.cashier, "")
    case 2 => Template("Customer ID: ", slip.customerId, "")
    case _ => Template("Cash: ", slip.cash, "")
  }

  /** The title centred on line 20, the slip number and date on line 35 at
      either margin, the salesperson, cashier, customer and cash 7 apart
      down to line 63, and the "Items" title on line 75. */
  function Header(slip: SaleSlip): (h: seq<Line>)
    ensures |h| == 7
    ensures h[0] == Line(20, [Piece(Plain("Sales Slip Report"), PageCentre)])
    ensures h[1] == Line(35, [Piece(Template("Slip No: ", slip.slipNo, ""), At(14)),
                              Piece(LocaleDate("Date: ", slip.date), RightMargin)])
    ensures forall i :: 2 <= i < 6 ==> h[i] == Single(Detail(slip, i - 2), 14, 35 + 7 * (i - 1))
    ensures h[6] == Single(Plain("Items"), 14, 75)
    ensures Descending(h) && Above(h, 76)
  {
    [ Line(20, [Piece(Plain("Sales Slip Report"), PageCentre)]),
      Line(35, [Piece(Template("Slip No: ", slip.slipNo, ""), At(14)),
                Piece(LocaleDate("Date: ", slip.date), RightMargin)]) ]
    + seq(4, i requires 0 <= i < 4 => Single(Detail(slip, i), 14, 42 + 7 * i))
    + [Single(Plain("Items"), 14, 75)]
  }

  /** Row `k` of the items table: its number `k + 1`, then the item's fields. */
  function ItemRow(k: nat, item: SlipItem): (row: seq<Text>)
    ensures |row| == |ItemHeads|
    ensures row[0] == Cell(Number(Real((k + 1) as real)))
    ensures row[1..] == [Cell(item.itemId), Cell(item.previousReading), Cell(item.currentReading),
                         Cell(item.qty), Cell(item.unitRate), Cell(item.netAmount)]
  {
    [Cell(Number(Real((k + 1) as real))), Cell(item.itemId), Cell(item.previousReading),
     Cell(item.currentReading), Cell(item.qty), Cell(item.unitRate), Cell(item.netAmount)]
  }

  /** The rows of the items table, numbered from 1 in the order of the items. */
  function ItemRows(items: seq<SlipItem>): (rows: seq<seq<Text>>)
    ensures |rows| == |items|
    ensures forall k :: 0 <= k < |items| ==> rows[k] == ItemRow(k, items[k])
  {
    seq(|items|, k requires 0 <= k < |items| => ItemRow(k, items[k]))
  }

  /** A row of the amounts table: the account and bank, or "N/A" when falsy;
      the cash in hand; "Yes" or "No" for the online flag; the timestamp. */
  function AmountRow(amt: SlipAmount): (row: seq<Text>)
    ensures |row| == |AmountHeads|
    ensures row[0] == Cell(if Truthy(amt.accountNumber) then amt.accountNumber else Str("N/A"))
    ensures row[1] == Cell(if Truthy(amt.bankName) then amt.bankName else Str("N/A"))
    ensures row[2] == Cell(amt.cashInHand)
    ensures row[3] == Plain(if Truthy(amt.isOnline) then "Yes" else "No")
    ensures row[4] == LocaleDateTime(amt.timestamp)
  {
    [Cell(Or(amt.accountNumber, Str("N/A"))), Cell(Or(amt.bankName, Str("N/A"))), Cell(amt.cashInHand),
     Plain(if Truthy(amt.isOnline) then "Yes" else "No"), LocaleDateTime(amt.timestamp)]
  }

  function AmountRows(amounts: seq<SlipAmount>): (rows: seq<seq<Text>>)
    ensures |rows| == |amounts|
    ensures forall k :: 0 <= k < |amounts| ==> rows[k] == AmountRow(amounts[k])
  {
    seq(|amounts|, k requires 0 <= k < |amounts| => AmountRow(amounts[k]))
  }

  /** A cash payment saved by the sale form (bank and account sent as null,
      `is_online` false) reads "N/A", "N/A" and "No" in the amounts table. */
  lemma CashPaymentRow(amt: SlipAmount)
    requires amt.accountNumber == Null && amt.bankName == Null && amt.isOnline == Bool(false)
    ensures AmountRow(amt)[0] == Cell(Str("N/A")) && AmountRow(amt)[1] == Cell(Str("N/A"))
    ensures AmountRow(amt)[3] == Plain("No")
  {
  }

  /** The totals, 10 below the amounts table and 6 apart. */
  function Totals(slip: SaleSlip, y: int): (t: seq<Line>)
    ensures |t| == 3
    ensures t[0] == Single(Template("Total Quantity: ", slip.totalQty, ""), 14, y + 10)
    ensures t[1] == Single(Template("Total Net Amount: ", slip.totalNetAmount, ""), 14, y + 16)
    ensures t[2] == Single(Template("Total Balance: ", slip.totalBalance, ""), 14, y + 22)
    ensures Descending(t) && NotAbove(t, y + 10) && Above(t, y + 23)
  {
    [ Single(Template("Total Quantity: ", slip.totalQty, ""), 14, y + 10),
      Single(Template("Total Net Amount: ", slip.totalNetAmount, ""), 14, y + 16),
      Single(Template("Total Balance: ", slip.totalBalance, ""), 14, y + 22) ]
  }

  /** The header and the items table's headings. */
  function Top(slip: SaleSlip): (t: seq<Line>)
    ensures |t| == 8 && t[..7] == Header(slip) && t[7] == Row(Plains(ItemHeads), Spaced(7, 25), 80)
    ensures Descending(t) && Above(t, 81)
  {
    ConcatDescending(Header(slip), [Row(Plains(ItemHeads), Spaced(7, 25), 80)], 76, 81);
    Header(slip) + [Row(Plains(ItemHeads), Spaced(7, 25), 80)]
  }

  /** The amounts title and headings, below an items table of `n` rows. */
  function Middle(n: nat): (m: seq<Line>)
    ensures |m| == 2
    ensures m[0] == Single(Plain("Amounts"), 14, 96 + 6 * n)
    ensures m[1] == Row(Plains(AmountHeads), Spaced(5, 35), 101 + 6 * n)
    ensures Descending(m) && NotAbove(m, 86 + 6 * n) && Above(m, 102 + 6 * n)
  {
    [Single(Plain("Amounts"), 14, 96 + 6 * n), Row(Plains(AmountHeads), Spaced(5, 35), 101 + 6 * n)]
  }

  /** The lines of the report of a slip with these items and amounts. */
  function SlipLines(slip: SaleSlip, items: seq<SlipItem>, amounts: seq<SlipAmount>): seq<Line> {
    Top(slip)
    + TableLines(ItemRows(items), Spaced(7, 25), 86)
    + Middle(|items|)
    + TableLines(AmountRows(amounts), Spaced(5, 35), 107 + 6 * |items|)
    + Totals(slip, 107 + 6 * |items| + 6 * |amounts|)
  }

  /** Where everything lands: the header and headings on lines 20 to 80,
      item `k` on line `86 + 6k`, the amounts title and headings below the
      last item, amount `m` 6 apart below those, the totals last, and every
      line below the ones before it. */
  lemma SlipLayout(slip: SaleSlip, items: seq<SlipItem>, amounts: seq<SlipAmount>)
    ensures var n, a := |items|, |amounts|;
            var lines := SlipLines(slip, items, amounts);
            && |lines| == 13 + n + a
            && lines[..7] == Header(slip)
            && lines[7] == Row(Plains(ItemHeads), Spaced(7, 25), 80)
            && TableAt(lines, 8, ItemRows(items), Spaced(7, 25), 86)
            && lines[8 + n] == Single(Plain("Amounts"), 14, 96 + 6 * n)
            && lines[9 + n] == Row(Plains(AmountHeads), Spaced(5, 35), 101 + 6 * n)
            && TableAt(lines, 10 + n, AmountRows(amounts), Spaced(5, 35), 107 + 6 * n)
            && lines[10 + n + a..] == Totals(slip, 107 + 6 * n + 6 * a)
            && Descending(lines)
  {
    SlipTop(slip, items, amounts);
    SlipItems(slip, items, amounts);
    SlipAmounts(slip, items, amounts);
    SlipDescending(slip, items, amounts);
  }

  lemma SlipTop(slip: SaleSlip, items: seq<SlipItem>, amounts: seq<SlipAmount>)
    ensures var lines := SlipLines(slip, items, amounts);
            && |lines| == 13 + |items| + |amounts|
            && lines[..8] == Top(slip)
            && lines[..7] == Header(slip)
            && lines[7] == Row(Plains(ItemHeads), Spaced(7, 25), 80)
  {
    var top := Top(slip);
    var rest := TableLines(ItemRows(items), Spaced(7, 25), 86) + Middle(|items|)
                + TableLines(AmountRows(amounts), Spaced(5, 35), 107 + 6 * |items|)
                + Totals(slip, 107 + 6 * |items| + 6 * |amounts|);
    assert SlipLines(slip, items, amounts) == top + rest;
  }

  lemma SlipItems(slip: SaleSlip, items: seq<SlipItem>, amounts: seq<SlipAmount>)
    ensures var n := |items|;
            var lines := SlipLines(slip, items, amounts);
            && |lines| == 13 + n + |amounts|
            && TableAt(lines, 8, ItemRows(items), Spaced(7, 25), 86)
            && lines[8 + n] == Single(Plain("Amounts"), 14, 96 + 6 * n)
            && lines[9 + n] == Row(Plains(AmountHeads), Spaced(5, 35), 101 + 6 * n)
  {
    var itemTable := TableLines(ItemRows(items), Spaced(7, 25), 86);
    var rest := Middle(|items|)
                + TableLines(AmountRows(amounts), Spaced(5, 35), 107 + 6 * |items|)
                + Totals(slip, 107 + 6 * |items| + 6 * |amounts|);
    assert SlipLines(slip, items, amounts) == Top(slip) + itemTable + rest;
    TableShift(Top(slip), itemTable, rest, ItemRows(items), Spaced(7, 25), 86);
  }

  lemma SlipAmounts(slip: SaleSlip, items: seq<SlipItem>, amounts: seq<SlipAmount>)
    ensures var n, a := |items|, |amounts|;
            var lines := SlipLines(slip, items, amounts);
            && |lines| == 13 + n + a
            && TableAt(lines, 10 + n, AmountRows(amounts), Spaced(5, 35), 107 + 6 * n)
            && lines[10 + n + a..] == Totals(slip, 107 + 6 * n + 6 * a)
  {
    var upper := Top(slip) + TableLines(ItemRows(items), Spaced(7, 25), 86) + Middle(|items|);
    var amountTable := TableLines(AmountRows(amounts), Spaced(5, 35), 107 + 6 * |items|);
    var totals := Totals(slip, 107 + 6 * |items| + 6 * |amounts|);
    assert SlipLines(slip, items, amounts) == upper + amountTable + totals;
    TableShift(upper, amountTable, totals, AmountRows(amounts), Spaced(5, 35), 107 + 6 * |items|);
  }

  lemma SlipDescending(slip: SaleSlip, items: seq<SlipItem>, amounts: seq<SlipAmount>)
    ensures Descending(SlipLines(slip, items, amounts))
  {
    var n, a := |items|, |amounts|;
    var top := Top(slip);
    var itemTable := TableLines(ItemRows(items), Spaced(7, 25), 86);
    var middle := Middle(n);
    var amountTable := TableLines(AmountRows(amounts), Spaced(5, 35), 107 + 6 * n);
    var totals := Totals(slip, 107 + 6 * n + 6 * a);
    ConcatDescending(top, itemTable, 81, 86 + 6 * n);
    ConcatDescending(top + itemTable, middle, 86 + 6 * n, 102 + 6 * n);
    ConcatDescending(top + itemTable + middle, amountTable, 102 + 6 * n, 107 + 6 * n + 6 * a);
    ConcatDescending(top + itemTable + middle + amountTable, totals, 107 + 6 * n + 6 * a, 130 + 6 * n + 6 * a);
  }

  /** The report of a slip whose items and amounts are both arrays; a slip
      without them makes `slip.items.map` or `slip.amounts.map` throw before
      anything is saved. */
  function SlipReport(slip: SaleSlip): (rep: Option<Report>)
    ensures rep.Some? <==> slip.items.Some? && slip.amounts.Some?
    ensures rep.Some? ==> rep.value.lines == SlipLines(slip, slip.items.value, slip.amounts.value)
    ensures rep.Some? ==> rep.value.fileName == Template("sales_slip_", slip.slipNo, ".pdf")
  {
    if slip.items.None? || slip.amounts.None? then None
    else Some(Report(SlipLines(slip, slip.items.value, slip.amounts.value),
                     Template("sales_slip_", slip.slipNo, ".pdf")))
  }

  /** `generateReport`: nothing at all until a slip has been opened. */
  function GenerateReport(selected: Option<SaleSlip>): (rep: Option<Report>)
    ensures selected.None? ==> rep.None?
    ensures selected.Some? ==> rep == SlipReport(selected.value)
  {
    if selected.None? then None else SlipReport(selected.value)
  }

  // ---------------------------------------------------------------------------
  // The download button on each row

  /** As written: the button on row `k` calls `generateReport` with the click
      event and no slip, so it reports the slip the dialog last showed,
      whichever row it sits on, and nothing before any slip was opened. */
  function DownloadClicked(v: SaleListView, k: nat): (rep: Option<Report>)
    requires k < |v.data|
    ensures v.selected.None? ==> rep.None?
    ensures v.selected.Some? ==> rep == SlipReport(v.selected.value)
  {
    GenerateReport(v.selected)
  }

  /** As written, every row's button gives the same report, and none at all
      on a page where no slip has been opened. */
  lemma DownloadIgnoresRow(v: SaleListView, i: nat, j: nat)
    requires i < |v.data| && j < |v.data|
    ensures DownloadClicked(v, i) == DownloadClicked(v, j)
    ensures v.selected.None? ==> DownloadClicked(v, i).None?
  {
  }

  /** A slip with no items and no amounts, numbered `slipNo`. */
  function EmptySlip(slipNo: JsValue): SaleSlip {
    SaleSlip(slipNo, Undefined, Undefined, Undefined, Undefined, Undefined, Some([]), Some([]),
             Undefined, Undefined, Undefined)
  }

  /** The input that shows it: two slips listed, "S-1" opened in the dialog,
      and the download button of the row of "S-2" saves "sales_slip_S-1.pdf". */
  lemma WrongSlipDownloaded()
    ensures var v := SaleListView([map["id" := Number(Real(1.0)), "slip_no" := Str("S-1")],
                                   map["id" := Number(Real(2.0)), "slip_no" := Str("S-2")]],
                                  true, Some(EmptySlip(Str("S-1"))));
            && DownloadClicked(v, 1).Some?
            && DownloadClicked(v, 1).value.fileName == Template("sales_slip_", Str("S-1"), ".pdf")
            && RecordList.Get(v.data[1], "slip_no") == Str("S-2")
  {
    var v := SaleListView([map["id" := Number(Real(1.0)), "slip_no" := Str("S-1")],
                           map["id" := Number(Real(2.0)), "slip_no" := Str("S-2")]],
                          true, Some(EmptySlip(Str("S-1"))));
    assert RecordList.Get(v.data[1], "slip_no") == Str("S-2");
  }

  /** Corrected, as the purchases page does it: the button on row `k` fetches
      that row's slip by its id (`lookup`, None when the request fails) and
      reports it. */
  function DownloadRow(v: SaleListView, k: nat, lookup: JsValue -> Option<SaleSlip>): (rep: Option<Report>)
    requires k < |v.data|
    ensures lookup(RecordList.Id(v.data[k])).None? ==> rep.None?
    ensures lookup(RecordList.Id(v.data[k])).Some? ==> rep == SlipReport(lookup(RecordList.Id(v.data[k])).value)
  {
    match lookup(RecordList.Id(v.data[k]))
    case None => None
    case Some(slip) => SlipReport(slip)
  }

  /** Corrected: the report does not depend on which slip the dialog showed,
      and when the backend answers with the row's own slip, the file carries
      that row's slip number. */
  lemma DownloadNamesRow(v: SaleListView, k: nat, lookup: JsValue -> Option<SaleSlip>, viewed: Option<SaleSlip>)
    requires k < |v.data|
    ensures DownloadRow(v, k, lookup) == DownloadRow(v.(selected := viewed), k, lookup)
    ensures var slip := lookup(RecordList.Id(v.data[k]));
            slip.Some? && slip.value.slipNo == RecordList.Get(v.data[k], "slip_no")
            && slip.value.items.Some? && slip.value.amounts.Some? ==>
              DownloadRow(v, k, lookup).Some?
              && DownloadRow(v, k, lookup).value.fileName
                 == Template("sales_slip_", RecordList.Get(v.data[k], "slip_no"), ".pdf")
  {
  }
}
