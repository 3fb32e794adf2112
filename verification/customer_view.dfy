/**
 The customers list page: the shared list reconciliation, an edit dialog
 that stores every field as the text typed (the cash balance included, as
 the string a number input yields), and the cash-balance cell, which shows
 the balance type beside the magnitude of the balance.
 */
module CustomerView {
  import opened JsValues
  import RecordList

  /** The six keys the edit dialog offers, in its order. */
  const DialogKeys: seq<string> := ["name", "address", "tel", "mobile", "email", "cash_balance"]

  /** What the cash-balance cell shows: the balance type, then
      `Math.abs(cash_balance)`. */
  datatype CashCell = CashCell(balanceType: JsValue, amount: Num)

  function CashCellOf(rec: RecordList.Record): (c: CashCell)
    ensures c.balanceType == RecordList.Get(rec, "cash_balance_type")
    ensures c.amount.Real? <==> ToNumeric(RecordList.Get(rec, "cash_balance")).Real?
    ensures c.amount.Real? ==> c.amount.r >= 0.0
    ensures c.amount.Real? ==> (c.amount.r == ToNumeric(RecordList.Get(rec, "cash_balance")).r
                                || c.amount.r == -ToNumeric(RecordList.Get(rec, "cash_balance")).r)
  {
    CashCell(RecordList.Get(rec, "cash_balance_type"), Abs(ToNumeric(RecordList.Get(rec, "cash_balance"))))
  }

  /** The cell drops the sign: a balance and its negation show the same
      amount, so only the balance type tells a debit from a credit. */
  lemma CashCellDropsSign(rec: RecordList.Record, x: real)
    requires RecordList.Get(rec, "cash_balance") == Number(Real(x))
    ensures CashCellOf(rec).amount == CashCellOf(rec["cash_balance" := Number(Real(-x))]).amount
    ensures CashCellOf(rec).amount == Real(if x < 0.0 then -x else x)
  {
    var neg := rec["cash_balance" := Number(Real(-x))];
    assert RecordList.Get(neg, "cash_balance") == Number(Real(-x));
  }

  /** A change event in the dialog: the text typed, whatever the field. */
  function EditField(v: RecordList.ListView, key: string, text: string): (r: RecordList.ListView)
    ensures r.data == v.data && r.open == v.open
    ensures r.selected.Some? && RecordList.Get(r.selected.value, key) == Str(text)
    ensures v.selected.Some? ==> forall k :: k != key ==>
              RecordList.Get(r.selected.value, k) == RecordList.Get(v.selected.value, k)
  {
    RecordList.SetText(v, key, text)
  }

  /** Editing the cash balance of listed customer `k` to `text` and saving it
      successfully: that row's cell shows the magnitude of the number the text
      reads as (a blank text reads as 0), its balance type is unchanged, and
      every other row's cell is as it was. */
  lemma CashEditShown(data: seq<RecordList.Record>, k: nat, text: string)
    requires k < |data|
    requires forall j :: 0 <= j < |data| && j != k ==> !StrictEquals(RecordList.Id(data[j]), RecordList.Id(data[k]))
    requires StrictEquals(RecordList.Id(data[k]), RecordList.Id(data[k]))
    ensures var v := EditField(RecordList.HandleEdit(RecordList.ListView(data, false, None), data[k]),
                               "cash_balance", text);
            var saved := RecordList.HandleSave(v, true).data;
            && |saved| == |data|
            && CashCellOf(saved[k]) == CashCell(CashCellOf(data[k]).balanceType, Abs(ToNumber(text)))
            && forall j :: 0 <= j < |data| && j != k ==> CashCellOf(saved[j]) == CashCellOf(data[j])
  {
    RecordList.EditThenSave(data, k, "cash_balance", Str(text));
    var rec := data[k]["cash_balance" := Str(text)];
    assert RecordList.Get(rec, "cash_balance_type") == RecordList.Get(data[k], "cash_balance_type");
    assert RecordList.Get(rec, "cash_balance") == Str(text);
  }

  /** Clearing the cash balance in the dialog and saving shows 0, not an
      empty cell or NaN. */
  lemma ClearedCashShowsZero(data: seq<RecordList.Record>, k: nat)
    requires k < |data|
    requires forall j :: 0 <= j < |data| && j != k ==> !StrictEquals(RecordList.Id(data[j]), RecordList.Id(data[k]))
    requires StrictEquals(RecordList.Id(data[k]), RecordList.Id(data[k]))
    ensures var v := EditField(RecordList.HandleEdit(RecordList.ListView(data, false, None), data[k]),
                               "cash_balance", "");
            CashCellOf(RecordList.HandleSave(v, true).data[k]).amount == Real(0.0)
  {
    CashEditShown(data, k, "");
  }
}
