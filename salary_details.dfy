/**
 * The logic of the salary page: the earnings table (five standard rows, then
 * one row per custom allowance), the check and request built by "Save", the
 * increment column of the history table and the rows of the PDF pay slip.
 */
module SalaryDetails {
  import opened Base
  import opened Text

  /** A custom allowance; `caption` is the label it is shown under. */
  datatype Allowance = Allowance(id: string, caption: string, amount: int)

  /** The employee record as the salary page loads it. */
  datatype SalaryEmployee = SalaryEmployee(
    name: string,
    salary: int,
    basic: int,
    hra: int,
    da: int,
    travel: int,
    special: int,
    allowances: Option<seq<Allowance>>)

  datatype RowType = Standard | Custom

  datatype Row = Row(key: string, caption: string, value: int, kind: RowType)

  const StandardKeys: seq<string> := ["basic", "hra", "da", "travel", "special"]
  const StandardLabels: seq<string> := ["Basic Salary", "HRA", "DA", "Travel Allowance", "Special Allowance"]

  function StandardValues(e: SalaryEmployee): seq<int>
  {
    [e.basic, e.hra, e.da, e.travel, e.special]
  }

  /** A record without an allowance list has no custom allowances. */
  function AllowancesOf(e: SalaryEmployee): seq<Allowance>
  {
    if e.allowances.Some? then e.allowances.value else []
  }

  function CustomRow(a: Allowance): Row
  {
    Row(a.id, a.caption, a.amount, Custom)
  }

  /** `tableRows`: no rows before the employee is loaded. */
  function TableRows(employee: Option<SalaryEmployee>): (rows: seq<Row>)
    ensures employee.None? ==> rows == []
    ensures employee.Some? ==> |rows| == 5 + |AllowancesOf(employee.value)|
    ensures employee.Some? ==> forall i :: 0 <= i < 5 ==>
      rows[i] == Row(StandardKeys[i], StandardLabels[i], StandardValues(employee.value)[i], Standard)
    ensures employee.Some? ==> forall j :: 0 <= j < |AllowancesOf(employee.value)| ==>
      rows[5 + j] == CustomRow(AllowancesOf(employee.value)[j])
  {
    match employee
    case None => []
    case Some(e) =>
      var values := StandardValues(e);
      var standard := seq(5, i requires 0 <= i < 5 => Row(StandardKeys[i], StandardLabels[i], values[i], Standard));
      var custom := seq(|AllowancesOf(e)|, j requires 0 <= j < |AllowancesOf(e)| => CustomRow(AllowancesOf(e)[j]));
      standard + custom
  }

  /** The custom allowances a list of rows shows, in row order. */
  function AllowancesShown(rows: seq<Row>): seq<Allowance>
  {
    if rows == [] then []
    else
      var rest := AllowancesShown(rows[1..]);
      if rows[0].kind == Custom then [Allowance(rows[0].key, rows[0].caption, rows[0].value)] + rest else rest
  }

  lemma {:induction false} AllowancesShownOfCustom(allowances: seq<Allowance>, rows: seq<Row>)
    requires |rows| == |allowances|
    requires forall j :: 0 <= j < |rows| ==> rows[j] == CustomRow(allowances[j])
    ensures AllowancesShown(rows) == allowances
  {
    if rows != [] {
      AllowancesShownOfCustom(allowances[1..], rows[1..]);
    }
  }

  /**
   * The table shows every stored allowance, each exactly once, in stored
   * order: reading the custom rows back gives the allowance list.
   */
  lemma TableShowsAllowances(e: SalaryEmployee)
    ensures AllowancesShown(TableRows(Some(e))) == AllowancesOf(e)
  {
    var rows := TableRows(Some(e));
    var tail := rows[5..];
    assert rows == rows[..5] + tail;
    AllowancesShownOfCustom(AllowancesOf(e), tail);
    var r := rows;
    assert AllowancesShown(r) == AllowancesShown(r[1..]);
    assert AllowancesShown(r[1..]) == AllowancesShown(r[2..]);
    assert AllowancesShown(r[2..]) == AllowancesShown(r[3..]);
    assert AllowancesShown(r[3..]) == AllowancesShown(r[4..]);
    assert AllowancesShown(r[4..]) == AllowancesShown(tail);
  }

  /**
   * What the amount field holds when "Save" is pressed: text typed into the
   * field, or the row's numeric value that opening the edit dialog put there.
   */
  datatype FormAmount = Typed(text: string) | Prefilled(value: int)

  datatype Form = Form(caption: string, amount: FormAmount)

  /** The dialog is open to add an allowance or to edit the selected row. */
  datatype Mode = AddMode | EditMode(selected: Row)

  datatype SaveRequest =
    | Refused                                     // "Enter a valid amount", nothing sent
    | PostAllowance(form: Form)                   // the form as it stands, to the allowance endpoint
    | PutComponent(payload: map<string, real>)    // a one-key update of the employee

  /**
   * The amount `handleSave` accepts and the number `parseFloat` makes of it:
   * empty text and the number 0 are falsy, and text that is not a numeral is NaN.
   */
  function AmountValue(amount: FormAmount): (v: Option<real>)
    ensures amount == Typed("") || amount == Prefilled(0) ==> v.None?
    ensures amount.Prefilled? && amount.value != 0 ==> v == Some(amount.value as real)
    ensures amount.Typed? && amount.text != "" ==> v == ParseDecimal(amount.text)
  {
    match amount
    case Typed(s) => if s == "" then None else ParseDecimal(s)
    case Prefilled(n) => if n == 0 then None else Some(n as real)
  }

  /** A whole amount typed in decimal is accepted and read as itself, 0 included. */
  lemma TypedWholeAmount(n: int)
    ensures AmountValue(Typed(IntToString(n))) == Some(n as real)
  {
    DecimalRoundTrip(n);
  }

  /** A typed amount with a fraction is accepted and read as its exact decimal value. */
  lemma TypedFractionAmount(whole: string, frac: string)
    requires AllDigits(whole) && AllDigits(frac) && |whole| + |frac| > 0
    ensures AmountValue(Typed(whole + "." + frac)) == Some(NumeralValue(whole, frac))
  {
    ParseFraction("", whole, frac);
    assert "" + whole + "." + frac == whole + "." + frac;
  }

  /** Text that holds anything but digits, signs and points is refused. */
  lemma TypedGarbageRefused(s: string, i: nat)
    requires i < |s| && !IsNumeralChar(s[i])
    ensures AmountValue(Typed(s)).None?
  {
  }

  /**
   * Typed text that is not a well-formed numeral — a sign after the start, a
   * second point, or no digit at all, as in "1-2", "1.2.3", "-" or "." — is
   * refused whatever the dialog is doing.
   */
  lemma MalformedAmountRefused(mode: Mode, caption: string, s: string)
    requires !(SignOnlyInFront(s) && AtMostOnePoint(s) && HasDigit(s))
    ensures HandleSave(mode, Form(caption, Typed(s))).Refused?
  {
  }

  /** `handleSave`: refuse a bad amount, else add the allowance or update the one selected component. */
  function HandleSave(mode: Mode, form: Form): (req: SaveRequest)
    ensures req.Refused? <==> AmountValue(form.amount).None?
    ensures !req.Refused? && mode.AddMode? ==> req == PostAllowance(form)
    ensures !req.Refused? && mode.EditMode? ==>
      req.PutComponent? && req.payload.Keys == {mode.selected.key} &&
      req.payload[mode.selected.key] == AmountValue(form.amount).value
  {
    match AmountValue(form.amount)
    case None => Refused
    case Some(v) =>
      match mode
      case AddMode => PostAllowance(form)
      case EditMode(row) => PutComponent(map[row.key := v])
  }

  /** One line of the increment history. */
  datatype IncrementRecord = IncrementRecord(id: string, previousSalary: int, newSalary: int)

  /** The increment column: the new salary less the previous one, for each line in order. */
  function Increments(history: seq<IncrementRecord>): (column: seq<int>)
    ensures |column| == |history|
    ensures forall i :: 0 <= i < |history| ==> history[i].previousSalary + column[i] == history[i].newSalary
  {
    seq(|history|, i requires 0 <= i < |history| => history[i].newSalary - history[i].previousSalary)
  }

  /** The rows of the PDF pay slip, before the document library lays them out. */
  datatype PaySlip = PaySlip(
    title: string,
    head: seq<string>,
    body: seq<(string, int)>,
    foot: (string, int))

  function PaySlipOf(e: SalaryEmployee): (slip: PaySlip)
    ensures slip.title == "Pay Slip: " + e.name
    ensures slip.head == ["Component", "Amount"]
    ensures |slip.body| == |TableRows(Some(e))|
    ensures forall i :: 0 <= i < |slip.body| ==>
      slip.body[i] == (TableRows(Some(e))[i].caption, TableRows(Some(e))[i].value)
    ensures slip.foot == ("Total CTC", e.salary)
  {
    var rows := TableRows(Some(e));
    PaySlip(
      "Pay Slip: " + e.name,
      ["Component", "Amount"],
      seq(|rows|, i requires 0 <= i < |rows| => (rows[i].caption, rows[i].value)),
      ("Total CTC", e.salary))
  }

  /**
   * The pay slip lists the five standard components, then each custom
   * allowance by its label and amount in stored order; its total is the
   * recorded salary, whatever the rows add up to.
   */
  lemma PaySlipLayout(e: SalaryEmployee)
    ensures var slip := PaySlipOf(e);
      |slip.body| == 5 + |AllowancesOf(e)| &&
      (forall i :: 0 <= i < 5 ==> slip.body[i] == (StandardLabels[i], StandardValues(e)[i])) &&
      (forall j :: 0 <= j < |AllowancesOf(e)| ==>
        slip.body[5 + j] == (AllowancesOf(e)[j].caption, AllowancesOf(e)[j].amount)) &&
      slip.foot.1 == e.salary
  {
  }
}
