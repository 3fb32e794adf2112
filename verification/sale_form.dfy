/**
 The metered sale form: each line names a stocked item and two meter readings,
 sells the difference of the readings at the item's price, and the slip posted
 to `/create-sale` carries bank details only when paid online and a credit
 note only when the net amount exceeds the cash received.
 */
module SaleForm {
  import opened JsValues
  import LineEditor

  /** One row of the item table. The item is whatever value the item select
      last produced (an item id, or "" before a choice); the readings are the
      text of their inputs. */
  datatype SaleLine = SaleLine(itemId: JsValue, previousReading: string, currentReading: string)

  /** The row "Add New Item" appends. */
  const BlankLine := SaleLine(Str(""), "", "")

  /** An entry of the stocked-items list the page loads: its id and price as
      the backend sends them. */
  datatype AvailableItem = AvailableItem(id: JsValue, price: JsValue)

  /** The change handlers of the three editable cells of a row. */
  datatype LineEdit =
    | SetItemId(id: JsValue)
    | SetPreviousReading(reading: string)
    | SetCurrentReading(reading: string)

  function ApplyEdit(line: SaleLine, e: LineEdit): (r: SaleLine)
    ensures e.SetItemId? ==> r == line.(itemId := e.id)
    ensures e.SetPreviousReading? ==> r == line.(previousReading := e.reading)
    ensures e.SetCurrentReading? ==> r == line.(currentReading := e.reading)
  {
    match e
    case SetItemId(v) => SaleLine(v, line.previousReading, line.currentReading)
    case SetPreviousReading(v) => SaleLine(line.itemId, v, line.currentReading)
    case SetCurrentReading(v) => SaleLine(line.itemId, line.previousReading, v)
  }

  // ---------------------------------------------------------------------------
  // Net amount

  /** Whether a stocked item is the one a line names (`i.id === item.item_id`). */
  function Matches(id: JsValue): AvailableItem -> bool {
    (a: AvailableItem) => StrictEquals(a.id, id)
  }

  /** `matchedItem?.price || 0`, as the number the multiplication reads:
      0 when no stocked item has the line's id. */
  function UnitPrice(available: seq<AvailableItem>, id: JsValue): (price: Num)
    ensures (forall k :: 0 <= k < |available| ==> !StrictEquals(available[k].id, id)) ==> price == Real(0.0)
  {
    match Find(available, Matches(id))
    case None => Real(0.0)
    case Some(a) => ToNumeric(Or(a.price, Number(Real(0.0))))
  }

  /** The price is that of the first stocked item with the line's id; a
      falsy price (0, "", null) reads as 0. */
  lemma UnitPriceOfFirstMatch(available: seq<AvailableItem>, id: JsValue, k: nat)
    requires k < |available| && StrictEquals(available[k].id, id)
    requires forall j :: 0 <= j < k ==> !StrictEquals(available[j].id, id)
    ensures UnitPrice(available, id) == ToNumeric(Or(available[k].price, Number(Real(0.0))))
  {
    var r := Find(available, Matches(id));
    assert Matches(id)(available[k]);
    var m :| 0 <= m < |available| && available[m] == r.value && Matches(id)(available[m])
             && forall j :: 0 <= j < m ==> !Matches(id)(available[j]);
  }

  /** `(Number(current) || 0) - (Number(previous) || 0)`: not clamped, so a
      current reading below the previous one sells a negative quantity. */
  function Quantity(line: SaleLine): real {
    Or0(ToNumber(line.currentReading)) - Or0(ToNumber(line.previousReading))
  }

  function LineAmount(available: seq<AvailableItem>, line: SaleLine): Num {
    Mul(Real(Quantity(line)), UnitPrice(available, line.itemId))
  }

  function AmountOf(available: seq<AvailableItem>): SaleLine -> Num {
    (line: SaleLine) => LineAmount(available, line)
  }

  /** `calculateNetAmount()`: `reduce((total, item) => total + quantity * unitPrice, 0)`. */
  function NetAmount(available: seq<AvailableItem>, lines: seq<SaleLine>): Num {
    LineEditor.Total(lines, AmountOf(available), Real(0.0))
  }

  /** Every line's amount is a number (every matched price reads as one). */
  predicate Priced(available: seq<AvailableItem>, lines: seq<SaleLine>) {
    LineEditor.AllReal(lines, AmountOf(available))
  }

  /** The net amount is the sum of the line amounts when every line is
      priced, and NaN as soon as one is not. */
  lemma NetAmountIsSum(available: seq<AvailableItem>, lines: seq<SaleLine>)
    ensures Priced(available, lines) ==>
              NetAmount(available, lines) == Real(LineEditor.Sum(lines, LineEditor.Finite(AmountOf(available))))
    ensures NetAmount(available, lines).Real? <==> Priced(available, lines)
  {
    var amount := AmountOf(available);
    assert NetAmount(available, lines) == LineEditor.Total(lines, amount, Real(0.0));
    assert Priced(available, lines) == LineEditor.AllReal(lines, amount);
    LineEditor.TotalIsSum(lines, amount, 0.0);
  }

  /** A line naming no stocked item sells at price 0, whatever its readings. */
  lemma UnmatchedLineIsFree(available: seq<AvailableItem>, line: SaleLine)
    requires forall k :: 0 <= k < |available| ==> !StrictEquals(available[k].id, line.itemId)
    ensures LineAmount(available, line) == Real(0.0)
  {
  }

  /** Each reading on its own: a blank or unreadable reading counts as 0,
      so the quantity is the other reading (negated when it is the previous). */
  lemma BlankReadings(line: SaleLine)
    ensures line.previousReading == "" || ToNumber(line.previousReading).NaN? ==>
              Quantity(line) == Or0(ToNumber(line.currentReading))
    ensures line.currentReading == "" || ToNumber(line.currentReading).NaN? ==>
              Quantity(line) == -Or0(ToNumber(line.previousReading))
  {
  }

  /** A current reading of 2 after a previous reading of 5 sells -3 units. */
  lemma ReadingsBackwards(id: JsValue)
    ensures Quantity(SaleLine(id, RenderNat(5), RenderNat(2))) == -3.0
  {
    RenderNatRoundTrip(5);
    RenderNatRoundTrip(2);
  }

  // ---------------------------------------------------------------------------
  // Editor operations

  /** The blank row reads 0 units, so it sells for 0 whenever the price of
      the item "" is a number (0 when nothing stocked has that id), and for
      NaN otherwise. */
  lemma BlankLineIsFree(available: seq<AvailableItem>)
    ensures LineAmount(available, BlankLine).Real? <==> UnitPrice(available, Str("")).Real?
    ensures UnitPrice(available, Str("")).Real? ==> LineAmount(available, BlankLine) == Real(0.0)
  {
    assert ToNumber("") == Real(0.0);
    assert Quantity(BlankLine) == 0.0;
  }

  /** "Add New Item": a blank row at the end, which leaves the net amount
      where it was unless the item "" has a price that is not a number. */
  function AddItem(available: seq<AvailableItem>, lines: seq<SaleLine>): (r: seq<SaleLine>)
    ensures |r| == |lines| + 1 && r[..|lines|] == lines && r[|lines|] == BlankLine
    ensures UnitPrice(available, Str("")).Real? ==> NetAmount(available, r) == NetAmount(available, lines)
    ensures !UnitPrice(available, Str("")).Real? ==> NetAmount(available, r).NaN?
  {
    AppendBlankNet(available, lines);
    LineEditor.Append(lines, BlankLine)
  }

  /** The net amount after appending the blank row: the old one plus the blank row's amount. */
  lemma AppendBlankNet(available: seq<AvailableItem>, lines: seq<SaleLine>)
    ensures var r := LineEditor.Append(lines, BlankLine);
            && (UnitPrice(available, Str("")).Real? ==> NetAmount(available, r) == NetAmount(available, lines))
            && (!UnitPrice(available, Str("")).Real? ==> NetAmount(available, r).NaN?)
  {
    var amount := AmountOf(available);
    LineEditor.TotalAppend(lines, BlankLine, amount, Real(0.0));
    BlankLineIsFree(available);
    assert amount(BlankLine) == LineAmount(available, BlankLine);
  }

  /** "Remove": row `i` goes and the others keep their order. */
  function RemoveItem(lines: seq<SaleLine>, i: nat): (r: seq<SaleLine>)
    ensures i < |lines| ==> |r| == |lines| - 1
    ensures i >= |lines| ==> r == lines
    ensures forall k :: 0 <= k < |r| ==> r[k] == (if k < i then lines[k] else lines[k + 1])
  {
    LineEditor.RemoveAt(lines, i)
  }

  /** On priced rows, the removed row's amount leaves the net amount. */
  lemma RemoveItemNet(available: seq<AvailableItem>, lines: seq<SaleLine>, i: nat)
    requires i < |lines| && Priced(available, lines)
    ensures Priced(available, RemoveItem(lines, i))
    ensures NetAmount(available, RemoveItem(lines, i))
            == Sub(NetAmount(available, lines), LineAmount(available, lines[i]))
  {
    LineEditor.TotalRemoveAt(lines, i, AmountOf(available));
  }

  /** A cell's change handler: only the named field of row `i` changes, and
      on priced rows the net amount moves by the change in that row's amount. */
  function EditLine(available: seq<AvailableItem>, lines: seq<SaleLine>, i: nat, e: LineEdit): (r: seq<SaleLine>)
    requires i < |lines|
    ensures |r| == |lines| && r[i] == ApplyEdit(lines[i], e)
    ensures forall k :: 0 <= k < |lines| && k != i ==> r[k] == lines[k]
    ensures Priced(available, lines) && LineAmount(available, r[i]).Real? ==>
              NetAmount(available, r)
              == Add(Sub(NetAmount(available, lines), LineAmount(available, lines[i])), LineAmount(available, r[i]))
  {
    var line := ApplyEdit(lines[i], e);
    if Priced(available, lines) && LineAmount(available, line).Real? then
      LineEditor.TotalUpdateAt(lines, i, line, AmountOf(available));
      LineEditor.UpdateAt(lines, i, line)
    else
      LineEditor.UpdateAt(lines, i, line)
  }

  // ---------------------------------------------------------------------------
  // Credit gating and the request body

  /** The header fields the form library collects; blank inputs are "". */
  datatype Header = Header(slipNo: string, salesperson: string, cashier: string, customerId: JsValue,
                           cash: string, bankName: string, accountNumber: string)

  /** What the page shows while editing: `showCredit` is `netAmount > Number(cash || 0)`. */
  predicate ShowCredit(available: seq<AvailableItem>, lines: seq<SaleLine>, cash: string) {
    Greater(NetAmount(available, lines), if cash == "" then Real(0.0) else ToNumber(cash))
  }

  datatype SaleItem = SaleItem(itemId: JsValue, previousReading: Num, currentReading: Num)

  /** The body `onSubmit` posts; `None` is a JSON `null`. */
  datatype SalePayload = SalePayload(slipNo: string, salesperson: string, cashier: string, customerId: JsValue,
                                     cash: Num, isOnline: bool, bankName: Option<string>,
                                     accountNumber: Option<string>, creditDescription: Option<string>,
                                     items: seq<SaleItem>)

  function ToSaleItem(line: SaleLine): SaleItem {
    SaleItem(line.itemId, ToNumber(line.previousReading), ToNumber(line.currentReading))
  }

  function BuildPayload(h: Header, lines: seq<SaleLine>, available: seq<AvailableItem>, isOnline: bool,
                        creditDescription: string): (p: SalePayload)
    ensures p.slipNo == h.slipNo && p.salesperson == h.salesperson && p.cashier == h.cashier
    ensures p.customerId == h.customerId && p.isOnline == isOnline && p.cash == ToNumber(h.cash)
    ensures p.bankName.Some? <==> isOnline
    ensures p.accountNumber.Some? <==> isOnline
    ensures isOnline ==> p.bankName == Some(h.bankName) && p.accountNumber == Some(h.accountNumber)
    ensures p.creditDescription.Some? <==> Greater(NetAmount(available, lines), p.cash)
    ensures p.creditDescription.Some? ==> p.creditDescription.value == creditDescription
    ensures |p.items| == |lines|
    ensures forall k :: 0 <= k < |lines| ==> p.items[k] == ToSaleItem(lines[k])
  {
    var cash := ToNumber(h.cash);
    var net := NetAmount(available, lines);
    SalePayload(h.slipNo, h.salesperson, h.cashier, h.customerId, cash, isOnline,
                if isOnline then Some(h.bankName) else None,
                if isOnline then Some(h.accountNumber) else None,
                if Greater(net, cash) then Some(creditDescription) else None,
                Map(lines, ToSaleItem))
  }

  /** The credit note is sent exactly when the credit field was on screen:
      the page and the submit handler read the cash field the same way. */
  lemma CreditSentIffShown(h: Header, lines: seq<SaleLine>, available: seq<AvailableItem>, isOnline: bool,
                           creditDescription: string)
    ensures BuildPayload(h, lines, available, isOnline, creditDescription).creditDescription.Some?
            <==> ShowCredit(available, lines, h.cash)
  {
    if h.cash == "" {
      assert TrimEnd(h.cash) == [];
    }
  }

  /** The request rows carry the readings the net amount was computed from:
      on readable rows, each row's reading difference is the line's quantity. */
  lemma ItemsCarryQuantities(h: Header, lines: seq<SaleLine>, available: seq<AvailableItem>, isOnline: bool,
                             creditDescription: string, k: nat)
    requires k < |lines|
    requires ToNumber(lines[k].previousReading).Real? && ToNumber(lines[k].currentReading).Real?
    ensures var item := BuildPayload(h, lines, available, isOnline, creditDescription).items[k];
            item.currentReading.r - item.previousReading.r == Quantity(lines[k])
  {
  }
}
