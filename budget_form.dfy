/** The budget editor (src/app/manage-budgets/budget-form/budget-form.component.ts):
    the form controls, their validators, how a budget is loaded into the form
    or the form reset, the unit labels, and the budget it emits on submit.
    A control that holds null is None. */
module BudgetForm {
  import opened Wrappers
  import opened Models
  import opened Text

  datatype BudgetFormValue = BudgetFormValue(
    id: Option<string>,
    name: Option<string>,
    description: Option<string>,
    cycleType: CycleType,
    customValue: Option<int>,
    customUnit: CycleUnit,
    amount: Option<real>,
    isAccumulating: bool,
    importance: Option<Importance>)

  /** What `save` emits: the budget fields, with the id only when the form had one. */
  datatype BudgetData = BudgetData(id: Option<string>, info: BudgetInfo)

  const MaxNameLength: nat := 32
  const MaxDescriptionLength: nat := 128

  /** `Validators.required` on the cycle select: a stored tag that is the
      empty string is the only value it rejects. */
  predicate CycleTypeFilled(c: CycleType) {
    c != Unrecognized("")
  }

  /** The validators of `customValue`: null passes `min` and `pattern`;
      a number must be at least 1 and render as digits only. */
  predicate CustomValueOk(v: Option<int>) {
    match v
    case None => true
    case Some(n) => n >= 1 && AllDigits(IntString(n))
  }

  /** The digits-only pattern adds nothing to `min(1)` on integers. */
  lemma CustomValueRule(v: Option<int>)
    ensures CustomValueOk(v) <==> v.None? || v.value >= 1
  {
    if v.Some? {
      DigitsOnlyIffNonNegative(v.value);
    }
  }

  /** `budgetForm.valid`. On integers the digits pattern adds nothing:
      a valid form's custom value is empty or at least 1. */
  predicate FormValid(v: BudgetFormValue)
    ensures FormValid(v) ==> v.customValue.None? || v.customValue.value >= 1
  {
    CustomValueRule(v.customValue);
    && Truthy(v.name) && |v.name.value| <= MaxNameLength
    && (v.description.Some? ==> |v.description.value| <= MaxDescriptionLength)
    && CycleTypeFilled(v.cycleType)
    && CustomValueOk(v.customValue)
    && v.amount.Some? && v.amount.value >= 0.0
    && v.importance.Some?
  }

  /** `reset` in the effect when there is no budget: the controls it names
      get those values, every other control becomes null. */
  function ResetValue(): (r: BudgetFormValue)
    ensures r.cycleType == Monthly && r.customValue == Some(1) && r.customUnit == MonthUnit
    ensures r.id.None? && r.name.None? && r.description.None? && r.amount.None? && r.importance.None? && !r.isAccumulating
  {
    BudgetFormValue(None, None, None, Monthly, Some(1), MonthUnit, None, false, None)
  }

  /** A reset form cannot be submitted: name, amount and importance are missing. */
  lemma ResetFormInvalid()
    ensures !FormValid(ResetValue())
  {
  }

  /** `customValue || 1`: an absent, null or zero value becomes 1. */
  function CustomValueDefault(v: JsonNumber): (r: int)
    ensures r != 0
    ensures v.Num? && v.n != 0 ==> r == v.n
  {
    if v.Num? && v.n != 0 then v.n else 1
  }

  /** `customUnit || 'month'`. */
  function CustomUnitDefault(u: Option<CycleUnit>): (r: CycleUnit)
    ensures u.Some? ==> r == u.value
    ensures u.None? ==> r == MonthUnit
  {
    if u.Some? then u.value else MonthUnit
  }

  /** `patchValue` in the effect when a budget is given: every control from
      the budget, the custom value and unit through their defaults. */
  function PatchValue(b: Budget): (r: BudgetFormValue)
    ensures r.id == Some(b.id) && r.name == Some(b.info.name) && r.description == b.info.description
    ensures r.cycleType == b.info.cycle.kind
    ensures r.customValue == Some(CustomValueDefault(b.info.cycle.customValue))
    ensures r.customUnit == CustomUnitDefault(b.info.cycle.customUnit)
    ensures r.amount == Some(b.info.amount) && r.isAccumulating == b.info.isAccumulating
    ensures r.importance == Some(b.info.importance)
  {
    BudgetFormValue(Some(b.id), Some(b.info.name), b.info.description, b.info.cycle.kind,
      Some(CustomValueDefault(b.info.cycle.customValue)), CustomUnitDefault(b.info.cycle.customUnit),
      Some(b.info.amount), b.info.isAccumulating, Some(b.info.importance))
  }

  /** The custom-value control as it is stored: a cleared control is null. */
  function StoredValue(v: Option<int>): (r: JsonNumber)
    ensures r != Missing
    ensures r == Null <==> v.None?
    ensures v.Some? ==> r == Num(v.value)
  {
    if v.Some? then Num(v.value) else Null
  }

  /** The cycle `onSubmit` builds: the custom fields only for a custom cycle;
      otherwise they are `undefined`, so the keys are absent. */
  function SubmittedCycle(v: BudgetFormValue): (c: Cycle)
    ensures c.kind == v.cycleType
    ensures c.customValue != Missing <==> v.cycleType == Custom
    ensures c.customUnit.Some? <==> v.cycleType == Custom
    ensures v.cycleType == Custom ==> c.customValue == StoredValue(v.customValue) && c.customUnit == Some(v.customUnit)
  {
    if v.cycleType == Custom then Cycle(Custom, StoredValue(v.customValue), Some(v.customUnit))
    else Cycle(v.cycleType, Missing, None)
  }

  /** `budgetData` of a valid form, with `id` added iff the id control is truthy. */
  function Payload(v: BudgetFormValue): (r: BudgetData)
    requires FormValid(v)
    ensures r.id.Some? <==> Truthy(v.id)
    ensures r.id.Some? ==> r.id == v.id
    ensures Some(r.info.name) == v.name && r.info.description == v.description
    ensures Some(r.info.amount) == v.amount && Some(r.info.importance) == v.importance
    ensures r.info.isAccumulating == v.isAccumulating
    ensures r.info.cycle == SubmittedCycle(v)
  {
    BudgetData(if Truthy(v.id) then v.id else None,
      BudgetInfo(v.name.value, v.description, SubmittedCycle(v), v.amount.value, v.isAccumulating, v.importance.value))
  }

  /** A budget the form can reproduce: the limits its validators enforce,
      a non-empty id, and custom fields exactly when its cycle is custom. */
  predicate Editable(b: Budget) {
    && b.id != "" && b.info.name != "" && |b.info.name| <= MaxNameLength
    && (b.info.description.Some? ==> |b.info.description.value| <= MaxDescriptionLength)
    && CycleTypeFilled(b.info.cycle.kind)
    && b.info.amount >= 0.0
    && (b.info.cycle.kind == Custom ==> b.info.cycle.customValue.Num? && b.info.cycle.customValue.n >= 1 && b.info.cycle.customUnit.Some?)
    && (b.info.cycle.kind != Custom ==> b.info.cycle.customValue.Missing? && b.info.cycle.customUnit.None?)
  }

  /** Loading a budget into the form and submitting it untouched emits that
      same budget, id included. */
  lemma EditRoundTrip(b: Budget)
    requires Editable(b)
    ensures FormValid(PatchValue(b))
    ensures Payload(PatchValue(b)) == BudgetData(Some(b.id), b.info)
  {
    var v := PatchValue(b);
    CustomValueRule(v.customValue);
  }

  /** The scenario of the component's own unit test: a reset form given a
      name, an amount, a monthly cycle and an importance emits that name and
      amount, and no id. */
  lemma NewBudgetScenario()
    ensures var v := ResetValue().(name := Some("New Budget"), amount := Some(500.0), cycleType := Monthly, importance := Some(Medium));
      && FormValid(v)
      && Payload(v).info.name == "New Budget" && Payload(v).info.amount == 500.0
      && Payload(v).id.None?
  {
    var v := ResetValue().(name := Some("New Budget"), amount := Some(500.0), cycleType := Monthly, importance := Some(Medium));
    CustomValueRule(v.customValue);
  }

  /** `customUnitLabel` (months) and `customUnitYearLabel` (years): the
      unit's singular word exactly when the value is 1, else its plural. */
  function UnitLabel(u: CycleUnit, v: Option<int>): (r: string)
    ensures u == MonthUnit ==> (r == "חודש" <==> v == Some(1)) && (r == "חודשים" <==> v != Some(1))
    ensures u == YearUnit ==> (r == "שנה" <==> v == Some(1)) && (r == "שנים" <==> v != Some(1))
  {
    match u
    case MonthUnit => if v == Some(1) then "חודש" else "חודשים"
    case YearUnit => if v == Some(1) then "שנה" else "שנים"
  }

  class BudgetFormComponent {
    /** The `budget` input. */
    var budget: Option<Budget>
    var value: BudgetFormValue
    /** `markAllAsTouched` has run. */
    var allTouched: bool

    /** The form as the constructor's effect leaves it for the input. */
    constructor (budget: Option<Budget>)
      ensures this.budget == budget && !allTouched
      ensures budget.Some? ==> value == PatchValue(budget.value)
      ensures budget.None? ==> value == ResetValue()
    {
      this.budget := budget;
      value := BudgetFormValue(None, Some(""), Some(""), Monthly, Some(1), MonthUnit, None, false, None);
      allTouched := false;
      new;
      SetBudget(budget);
    }

    /** A new `budget` input: the effect patches the form, which leaves the
        touched state alone, or resets it, which marks every control untouched. */
    method SetBudget(b: Option<Budget>)
      modifies this
      ensures budget == b
      ensures b.Some? ==> value == PatchValue(b.value) && allTouched == old(allTouched)
      ensures b.None? ==> value == ResetValue() && !allTouched
    {
      budget := b;
      if b.Some? {
        value := PatchValue(b.value);
      } else {
        value := ResetValue();
        allTouched := false;
      }
    }

    /** A value typed into the form. */
    method Edit(v: BudgetFormValue)
      modifies this
      ensures value == v && budget == old(budget) && allTouched == old(allTouched)
    {
      value := v;
    }

    /** `isCustomCycle`: the template shows the custom fields exactly when
        `onSubmit` would emit them. */
    function IsCustomCycle(): (r: bool)
      reads this
      ensures r <==> SubmittedCycle(value).customUnit.Some?
      ensures r <==> SubmittedCycle(value).customValue != Missing
    {
      value.cycleType == Custom
    }

    /** `onSubmit`: a valid form emits its budget; an invalid one emits
        nothing and marks every control as touched. */
    method Submit() returns (r: Option<BudgetData>)
      modifies this
      ensures value == old(value) && budget == old(budget)
      ensures r.Some? <==> FormValid(value)
      ensures r.Some? ==> r.value == Payload(value) && allTouched == old(allTouched)
      ensures r.None? ==> allTouched
    {
      if FormValid(value) {
        r := Some(Payload(value));
      } else {
        allTouched := true;
        r := None;
      }
    }
  }
}
