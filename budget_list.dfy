/** The budget table (src/app/manage-budgets/budget-list/budget-list.component.ts):
    the cycle label of each row and the events its buttons emit. The
    confirmation dialog is reduced to its result. */
module BudgetList {
  import opened Wrappers
  import opened Models
  import opened Text
  import opened BudgetForm

  const MonthlyLabel: string := "חודשי"
  const BiMonthlyLabel: string := "דו-חודשי"
  const YearlyLabel: string := "שנתי"
  const Every: string := "כל "
  const MonthsWord: string := "חודשים"
  const YearsWord: string := "שנים"

  /** `${customValue}`: a missing value renders as "undefined", a null one
      as "null", and a number as its decimal text. */
  function ValueText(v: JsonNumber): (s: string)
    ensures v.Missing? ==> s == "undefined"
    ensures v.Null? ==> s == "null"
    ensures v.Num? && v.n >= 0 ==> AllDigits(s) && DecimalValue(s) == v.n
    ensures v.Num? && v.n < 0 ==> |s| >= 2 && s[0] == '-' && AllDigits(s[1..]) && DecimalValue(s[1..]) == -v.n
  {
    match v
    case Missing => "undefined"
    case Null => "null"
    case Num(n) => IntStringValue(n); IntString(n)
  }

  /** The unit word of a custom cycle: months only for 'month'. */
  function UnitWord(u: Option<CycleUnit>): (s: string)
    ensures s == MonthsWord <==> u == Some(MonthUnit)
    ensures s == YearsWord <==> u != Some(MonthUnit)
  {
    if u == Some(MonthUnit) then MonthsWord else YearsWord
  }

  /** `getCycleLabel`. */
  function CycleLabel(c: Cycle): (r: string)
    ensures c.kind == Monthly ==> r == MonthlyLabel
    ensures c.kind == BiMonthly ==> r == BiMonthlyLabel
    ensures c.kind == Yearly ==> r == YearlyLabel
    ensures c.kind == Custom ==> r == Every + ValueText(c.customValue) + " " + UnitWord(c.customUnit)
    ensures c.kind.Unrecognized? ==> r == ""
  {
    match c.kind
    case Monthly => MonthlyLabel
    case BiMonthly => BiMonthlyLabel
    case Yearly => YearlyLabel
    case Custom => Every + ValueText(c.customValue) + " " + UnitWord(c.customUnit)
    case Unrecognized(_) => ""
  }

  /** The label is empty exactly for an unknown cycle type, and a custom
      label never coincides with a fixed one. */
  lemma CycleLabelCases(c: Cycle)
    ensures CycleLabel(c) == "" <==> c.kind.Unrecognized?
    ensures c.kind == Custom ==> CycleLabel(c) != MonthlyLabel && CycleLabel(c) != BiMonthlyLabel && CycleLabel(c) != YearlyLabel
  {
    if c.kind == Custom {
      var r := CycleLabel(c);
      assert r[0] == 'כ';
      assert MonthlyLabel[0] != 'כ' && BiMonthlyLabel[0] != 'כ' && YearlyLabel[0] != 'כ';
    }
  }

  /** The last word of a custom label is the unit word, so two custom cycles
      with the same value and different unit classes get different labels. */
  lemma CustomLabelShowsUnit(c: Cycle, d: Cycle)
    requires c.kind == Custom && d.kind == Custom && c.customValue == d.customValue
    requires (c.customUnit == Some(MonthUnit)) != (d.customUnit == Some(MonthUnit))
    ensures CycleLabel(c) != CycleLabel(d)
  {
    var prefix := Every + ValueText(c.customValue) + " ";
    assert CycleLabel(c) == prefix + UnitWord(c.customUnit);
    assert CycleLabel(d) == prefix + UnitWord(d.customUnit);
    assert |MonthsWord| != |YearsWord|;
  }

  /** A custom budget saved from the editor with its value control cleared
      is stored with a null value, so its row reads "כל null ...". */
  lemma ClearedValueShowsNull(v: BudgetFormValue)
    requires FormValid(v) && v.cycleType == Custom && v.customValue.None?
    ensures CycleLabel(Payload(v).info.cycle) == Every + "null" + " " + UnitWord(Some(v.customUnit))
  {
  }

  /** `onEdit`: the row's budget, as it is. */
  function OnEdit(b: Budget): (r: Option<Budget>)
    ensures r == Some(b)
  {
    Some(b)
  }

  /** `onDelete` once the dialog closes: the id is emitted exactly when the
      dialog result is truthy. */
  function OnDelete(id: string, confirmed: bool): (r: Option<string>)
    ensures r.Some? <==> confirmed
    ensures r.Some? ==> r.value == id
  {
    if confirmed then Some(id) else None
  }
}
