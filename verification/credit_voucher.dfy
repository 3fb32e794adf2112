/**
 The credit voucher form: a voucher number, the credited account, a
 description and a table of debit details, posted to `/vouchers` and cleared
 again once the backend accepts it.
 */
module CreditVoucher {
  import opened JsValues
  import LineEditor

  /** One debit row; every field holds the text of its input. */
  datatype AccountDetail = AccountDetail(date: string, accountCode: string, accountName: string, debit: string)

  const BlankDetail := AccountDetail("", "", "", "")

  /** The `name` attribute of the input a change event comes from. */
  datatype Field = Date | AccountCode | AccountName | Debit

  /** The form's state. */
  datatype VoucherForm = VoucherForm(voucherNo: string, crAccount: string, description: string,
                                     details: seq<AccountDetail>)

  /** The state the page starts in and `resetForm` restores: blank header
      fields and exactly one blank row. */
  const Initial := VoucherForm("", "", "", [BlankDetail])

  /** `detail[name] = value` */
  function SetField(d: AccountDetail, f: Field, value: string): (r: AccountDetail)
    ensures f == Date ==> r == d.(date := value)
    ensures f == AccountCode ==> r == d.(accountCode := value)
    ensures f == AccountName ==> r == d.(accountName := value)
    ensures f == Debit ==> r == d.(debit := value)
  {
    match f
    case Date => AccountDetail(value, d.accountCode, d.accountName, d.debit)
    case AccountCode => AccountDetail(d.date, value, d.accountName, d.debit)
    case AccountName => AccountDetail(d.date, d.accountCode, value, d.debit)
    case Debit => AccountDetail(d.date, d.accountCode, d.accountName, value)
  }

  /** The value of field `f` of a row. */
  function Get(d: AccountDetail, f: Field): string {
    match f
    case Date => d.date
    case AccountCode => d.accountCode
    case AccountName => d.accountName
    case Debit => d.debit
  }

  /** `handleAccountDetailChange(index, e)`: field `f` of row `index` takes
      the new value; every other row, every other field of that row and the
      header fields keep theirs. */
  function ChangeDetail(form: VoucherForm, index: nat, f: Field, value: string): (r: VoucherForm)
    requires index < |form.details|
    ensures r.voucherNo == form.voucherNo && r.crAccount == form.crAccount && r.description == form.description
    ensures |r.details| == |form.details|
    ensures forall k :: 0 <= k < |r.details| && k != index ==> r.details[k] == form.details[k]
    ensures Get(r.details[index], f) == value
    ensures forall g :: g != f ==> Get(r.details[index], g) == Get(form.details[index], g)
  {
    form.(details := LineEditor.UpdateAt(form.details, index, SetField(form.details[index], f, value)))
  }

  /** `handleAddAccountDetail`: one blank row after the others. */
  function AddDetail(form: VoucherForm): (r: VoucherForm)
    ensures r.voucherNo == form.voucherNo && r.crAccount == form.crAccount && r.description == form.description
    ensures |r.details| == |form.details| + 1
    ensures r.details[..|form.details|] == form.details && r.details[|form.details|] == BlankDetail
  {
    form.(details := LineEditor.Append(form.details, BlankDetail))
  }

  /** `resetForm`: whatever the state, back to blank header fields and one blank row. */
  function ResetForm(form: VoucherForm): (r: VoucherForm)
    ensures r.voucherNo == "" && r.crAccount == "" && r.description == ""
    ensures r.details == [BlankDetail]
  {
    Initial
  }

  /** Resetting forgets every edit: two forms that differ in anything reset
      to the same state, and a reset form is already reset. */
  lemma ResetForgets(a: VoucherForm, b: VoucherForm)
    ensures ResetForm(a) == ResetForm(b)
    ensures ResetForm(ResetForm(a)) == ResetForm(a)
  {
  }

  // ---------------------------------------------------------------------------
  // Request body and the submit outcome

  /** One entry of `accounts`, with fields renamed and the debit read by
      `parseFloat` (a NaN debit is sent as JSON `null`). */
  datatype AccountRow = AccountRow(date: string, accountCode: string, accountName: string, debit: Num)

  datatype VoucherPayload = VoucherPayload(voucherNo: string, crAccount: string, description: string,
                                           accounts: seq<AccountRow>)

  function ToAccountRow(d: AccountDetail): AccountRow {
    AccountRow(d.date, d.accountCode, d.accountName, ParseFloat(d.debit))
  }

  function BuildPayload(form: VoucherForm): (p: VoucherPayload)
    ensures p.voucherNo == form.voucherNo && p.crAccount == form.crAccount && p.description == form.description
    ensures |p.accounts| == |form.details|
    ensures forall k :: 0 <= k < |form.details| ==>
              && p.accounts[k].date == form.details[k].date
              && p.accounts[k].accountCode == form.details[k].accountCode
              && p.accounts[k].accountName == form.details[k].accountName
              && p.accounts[k].debit == ParseFloat(form.details[k].debit)
  {
    VoucherPayload(form.voucherNo, form.crAccount, form.description, Map(form.details, ToAccountRow))
  }

  /** A debit typed as a natural number is sent as that number. */
  lemma DebitRoundTrip(form: VoucherForm, k: nat, n: nat)
    requires k < |form.details| && form.details[k].debit == RenderNat(n)
    ensures BuildPayload(form).accounts[k].debit == Real(n as real)
  {
    RenderNatRoundTrip(n);
  }

  /** A row left blank is sent with a NaN (JSON `null`) debit, not 0. */
  lemma BlankDebitIsNaN(form: VoucherForm, k: nat)
    requires k < |form.details| && form.details[k].debit == ""
    ensures BuildPayload(form).accounts[k].debit == NaN
  {
  }

  /** The form after `onSubmit`: reset when the backend accepted the
      voucher, untouched when it refused it or the request failed. */
  function Submit(form: VoucherForm, accepted: bool): (r: VoucherForm)
    ensures accepted ==> r == Initial
    ensures !accepted ==> r == form
  {
    if accepted then ResetForm(form) else form
  }

  /** A voucher that is accepted leaves the form as it was when the page
      opened, so the next voucher starts from one blank row. */
  lemma SubmitStartsOver(form: VoucherForm)
    ensures Submit(form, true) == Submit(Initial, false)
    ensures |Submit(form, true).details| == 1
  {
  }
}
