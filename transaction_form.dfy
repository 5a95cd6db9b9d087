/** The add/edit transaction dialog
    (src/app/transactions/transaction-form/transaction-form.component.ts):
    which kind it edits, which fields its validators require, and what it
    closes with. The form controls are the fields of `FormValue`; a control
    whose value is null or undefined is None. The account, card and budget
    lists of the dialog data only feed the select boxes and are left out. */
module TransactionForm {
  import opened Wrappers
  import opened Models

  datatype Kind = ExpenseKind | IncomeKind

  /** `TransactionFormData` without the select-box lists. */
  datatype FormData = FormData(transaction: Option<Transaction>, kind: Option<Kind>)

  datatype FormValue = FormValue(
    amount: Option<real>,
    description: Option<string>,
    date: Option<Date>,
    budgetId: Option<string>,
    paymentMethod: TargetType,
    creditCardId: Option<string>,
    paymentAccountId: Option<string>,
    targetType: TargetType,
    receivingAccountId: Option<string>,
    receivingCreditCardId: Option<string>)

  /** The controls that can carry `Validators.required`. */
  datatype Field =
    | AmountField | DescriptionField | DateField
    | BudgetField | CreditCardField | PaymentAccountField
    | ReceivingAccountField | ReceivingCardField

  /** What the dialog closes with: `{ type, data: result }`. */
  datatype Payload =
    | ExpensePayload(
        id: Option<string>,
        amount: Option<real>,
        description: Option<string>,
        executionDate: Option<Date>,
        budgetId: Option<string>,
        paymentMethod: TargetType,
        creditCardId: Option<string>,
        paymentAccountId: Option<string>)
    | IncomePayload(
        id: Option<string>,
        amount: Option<real>,
        description: Option<string>,
        receiptDate: Option<Date>,
        targetType: TargetType,
        receivingAccountId: Option<string>,
        receivingCreditCardId: Option<string>)

  datatype Closed = Closed(kind: Kind, data: Payload)

  const MinAmount: real := 0.1

  /** The kind the dialog opens with: the given type; else 'expense' exactly
      when the transaction has an execution date; else the signal's
      default, 'expense'. */
  function ResolveType(data: FormData): (r: Kind)
    ensures data.kind.Some? ==> r == data.kind.value
    ensures data.kind.None? && data.transaction.Some? ==> (r == ExpenseKind <==> IsExpense(data.transaction.value))
    ensures data.kind.None? && data.transaction.None? ==> r == ExpenseKind
  {
    match data.kind
    case Some(k) => k
    case None =>
      match data.transaction
      case Some(t) => if IsExpense(t) then ExpenseKind else IncomeKind
      case None => ExpenseKind
  }

  /** A kind given next to a transaction names that transaction's kind, as
      both callers pass it. */
  predicate Consistent(data: FormData) {
    data.kind.Some? && data.transaction.Some? ==> (data.kind.value == ExpenseKind <==> IsExpense(data.transaction.value))
  }

  /** The controls `updateValidators` leaves with `Validators.required`, for
      the kind and the form's current payment method and target type. */
  function RequiredFields(kind: Kind, payment: TargetType, target: TargetType): (req: set<Field>)
    ensures AmountField in req && DescriptionField in req && DateField in req
    ensures BudgetField in req <==> kind == ExpenseKind
    ensures CreditCardField in req <==> kind == ExpenseKind && payment == CardTarget
    ensures PaymentAccountField in req <==> kind == ExpenseKind && payment == AccountTarget
    ensures ReceivingAccountField in req <==> kind == IncomeKind && target == AccountTarget
    ensures ReceivingCardField in req <==> kind == IncomeKind && target == CardTarget
  {
    {AmountField, DescriptionField, DateField} +
    match kind
    case ExpenseKind => {BudgetField} + (if payment == CardTarget then {CreditCardField} else {PaymentAccountField})
    case IncomeKind => if target == AccountTarget then {ReceivingAccountField} else {ReceivingCardField}
  }

  /** `Validators.required` rejects null, undefined and ''. */
  predicate Filled(v: FormValue, f: Field) {
    match f
    case AmountField => v.amount.Some?
    case DescriptionField => Truthy(v.description)
    case DateField => v.date.Some?
    case BudgetField => Truthy(v.budgetId)
    case CreditCardField => Truthy(v.creditCardId)
    case PaymentAccountField => Truthy(v.paymentAccountId)
    case ReceivingAccountField => Truthy(v.receivingAccountId)
    case ReceivingCardField => Truthy(v.receivingCreditCardId)
  }

  /** `form.valid`: every required control is filled, and the amount, when
      there is one, is at least 0.1 (`Validators.min` lets null through). */
  predicate FormValid(v: FormValue, required: set<Field>)
    ensures FormValid(v, required) && AmountField in required ==> v.amount.Some? && v.amount.value >= MinAmount
    ensures FormValid(v, required) ==> forall f :: f in required ==> Filled(v, f)
  {
    && (forall f :: f in required ==> Filled(v, f))
    && (v.amount.Some? ==> v.amount.value >= MinAmount)
  }

  /** The `result` object of `onSubmit`, with the id of the edited transaction. */
  function BuildPayload(kind: Kind, v: FormValue, editId: Option<string>): (r: Payload)
    ensures r.ExpensePayload? <==> kind == ExpenseKind
    ensures r.id == editId && r.amount == v.amount && r.description == v.description
    ensures r.ExpensePayload? ==> && r.executionDate == v.date && r.budgetId == v.budgetId
                                  && r.paymentMethod == v.paymentMethod
                                  && r.creditCardId == (if v.paymentMethod == CardTarget then v.creditCardId else None)
                                  && r.paymentAccountId == (if v.paymentMethod == AccountTarget then v.paymentAccountId else None)
    ensures r.IncomePayload? ==> && r.receiptDate == v.date && r.targetType == v.targetType
                                 && r.receivingAccountId == (if v.targetType == AccountTarget then v.receivingAccountId else None)
                                 && r.receivingCreditCardId == (if v.targetType == CardTarget then v.receivingCreditCardId else None)
  {
    match kind
    case ExpenseKind =>
      ExpensePayload(editId, v.amount, v.description, v.date, v.budgetId, v.paymentMethod,
        if v.paymentMethod == CardTarget then v.creditCardId else None,
        if v.paymentMethod == AccountTarget then v.paymentAccountId else None)
    case IncomeKind =>
      IncomePayload(editId, v.amount, v.description, v.date, v.targetType,
        if v.targetType == AccountTarget then v.receivingAccountId else None,
        if v.targetType == CardTarget then v.receivingCreditCardId else None)
  }

  /** A form that passes its validators yields a complete payload: an amount
      of at least 0.1, a description, a date, and exactly the one reference
      the chosen method (or target) calls for, the other left undefined; an
      expense also names its budget. */
  lemma ValidFormGivesCompletePayload(kind: Kind, v: FormValue, editId: Option<string>)
    requires FormValid(v, RequiredFields(kind, v.paymentMethod, v.targetType))
    ensures var r := BuildPayload(kind, v, editId);
      && r.amount.Some? && r.amount.value >= MinAmount && Truthy(r.description)
      && (r.ExpensePayload? ==> && r.executionDate.Some? && Truthy(r.budgetId)
                                && (r.paymentMethod == CardTarget ==> Truthy(r.creditCardId) && r.paymentAccountId.None?)
                                && (r.paymentMethod == AccountTarget ==> Truthy(r.paymentAccountId) && r.creditCardId.None?))
      && (r.IncomePayload? ==> && r.receiptDate.Some?
                               && (r.targetType == AccountTarget ==> Truthy(r.receivingAccountId) && r.receivingCreditCardId.None?)
                               && (r.targetType == CardTarget ==> Truthy(r.receivingCreditCardId) && r.receivingAccountId.None?))
  {
    var req := RequiredFields(kind, v.paymentMethod, v.targetType);
    assert Filled(v, AmountField) && Filled(v, DescriptionField) && Filled(v, DateField);
    match kind
    case ExpenseKind =>
      assert Filled(v, BudgetField);
      if v.paymentMethod == CardTarget {
        assert Filled(v, CreditCardField);
      } else {
        assert Filled(v, PaymentAccountField);
      }
    case IncomeKind =>
      if v.targetType == AccountTarget {
        assert Filled(v, ReceivingAccountField);
      } else {
        assert Filled(v, ReceivingCardField);
      }
  }

  /** The controls as `initForm` creates them; `now` is `new Date()`. */
  function InitialValue(now: Date): (r: FormValue)
    ensures r.amount.None? && r.date == Some(now)
    ensures r.paymentMethod == CardTarget && r.targetType == AccountTarget
    ensures r.description == Some("") && r.budgetId == Some("") && r.creditCardId == Some("")
    ensures r.paymentAccountId == Some("") && r.receivingAccountId == Some("") && r.receivingCreditCardId == Some("")
  {
    FormValue(None, Some(""), Some(now), Some(""), CardTarget, Some(""), Some(""), AccountTarget, Some(""), Some(""))
  }

  /** A fresh form is invalid: its amount is empty and required. */
  lemma FreshFormInvalid(now: Date, kind: Kind)
    ensures !FormValid(InitialValue(now), RequiredFields(kind, CardTarget, AccountTarget))
  {
    assert !Filled(InitialValue(now), AmountField);
  }

  /** The controls `patchForm` fills from an edited expense. */
  function ExpenseValue(base: FormValue, e: Expense): (r: FormValue)
    ensures r.targetType == base.targetType && r.receivingAccountId == base.receivingAccountId
    ensures r.receivingCreditCardId == base.receivingCreditCardId
    ensures r.amount == Some(e.info.amount) && r.date == Some(e.info.executionDate)
    ensures r.description == Some(e.info.description) && r.budgetId == Some(e.info.budgetId)
    ensures r.paymentMethod == e.info.paymentMethod
    ensures r.creditCardId == e.info.creditCardId && r.paymentAccountId == e.info.paymentAccountId
  {
    base.(amount := Some(e.info.amount), description := Some(e.info.description),
      date := Some(e.info.executionDate), budgetId := Some(e.info.budgetId),
      paymentMethod := e.info.paymentMethod, creditCardId := e.info.creditCardId,
      paymentAccountId := e.info.paymentAccountId)
  }

  /** The controls `patchForm` fills from an edited income. */
  function IncomeValue(base: FormValue, i: Income): (r: FormValue)
    ensures r.budgetId == base.budgetId && r.paymentMethod == base.paymentMethod
    ensures r.creditCardId == base.creditCardId && r.paymentAccountId == base.paymentAccountId
    ensures r.amount == Some(i.info.amount) && r.date == Some(i.info.receiptDate)
    ensures r.description == i.info.description && r.targetType == i.info.targetType
    ensures r.receivingAccountId == i.info.receivingAccountId
    ensures r.receivingCreditCardId == i.info.receivingCreditCardId
  {
    base.(amount := Some(i.info.amount), description := i.info.description,
      date := Some(i.info.receiptDate), targetType := i.info.targetType,
      receivingAccountId := i.info.receivingAccountId,
      receivingCreditCardId := i.info.receivingCreditCardId)
  }

  /** Editing an expense and submitting it unchanged gives back its own
      fields: the form round-trips a well-formed expense. */
  lemma ExpenseRoundTrip(base: FormValue, e: Expense)
    requires e.info.paymentMethod == CardTarget ==> e.info.paymentAccountId.None?
    requires e.info.paymentMethod == AccountTarget ==> e.info.creditCardId.None?
    ensures BuildPayload(ExpenseKind, ExpenseValue(base, e), Some(e.id))
      == ExpensePayload(Some(e.id), Some(e.info.amount), Some(e.info.description), Some(e.info.executionDate),
           Some(e.info.budgetId), e.info.paymentMethod, e.info.creditCardId, e.info.paymentAccountId)
  {
  }

  /** Editing an income and submitting it unchanged gives back its own
      fields: the form round-trips a well-formed income. */
  lemma IncomeRoundTrip(base: FormValue, i: Income)
    requires i.info.targetType == AccountTarget ==> i.info.receivingCreditCardId.None?
    requires i.info.targetType == CardTarget ==> i.info.receivingAccountId.None?
    ensures BuildPayload(IncomeKind, IncomeValue(base, i), Some(i.id))
      == IncomePayload(Some(i.id), Some(i.info.amount), i.info.description, Some(i.info.receiptDate),
           i.info.targetType, i.info.receivingAccountId, i.info.receivingCreditCardId)
  {
  }

  class TransactionFormComponent {
    const data: FormData
    var isEdit: bool
    var transactionType: Kind
    /** The `targetType` and `paymentMethod` signals drive only the template. */
    var targetTypeSignal: TargetType
    var paymentMethodSignal: TargetType
    var value: FormValue
    /** The controls that currently carry `Validators.required`. */
    var required: set<Field>

    /** The validators always match the kind and the form's current choices:
        `updateValidators` runs on every value change and type change. */
    predicate Valid()
      reads this
    {
      required == RequiredFields(transactionType, value.paymentMethod, value.targetType)
    }

    /** The dialog as `ngOnInit` leaves it. */
    constructor (data: FormData, now: Date)
      requires Consistent(data)
      ensures Valid()
      ensures this.data == data
      ensures isEdit == data.transaction.Some?
      ensures transactionType == ResolveType(data)
      ensures data.transaction.None? ==> value == InitialValue(now)
      ensures data.transaction.Some? && IsExpense(data.transaction.value) ==>
        value == ExpenseValue(InitialValue(now), data.transaction.value.expense)
      ensures data.transaction.Some? && IsIncome(data.transaction.value) ==>
        value == IncomeValue(InitialValue(now), data.transaction.value.income)
    {
      this.data := data;
      isEdit := data.transaction.Some?;
      transactionType := ResolveType(data);
      targetTypeSignal := AccountTarget;
      paymentMethodSignal := CardTarget;
      value := InitialValue(now);
      required := {};
      new;
      UpdateValidators();
      if isEdit && data.transaction.Some? {
        PatchForm();
      }
    }

    /** `updateValidators`, control by control. */
    method UpdateValidators()
      modifies this
      ensures Valid()
      ensures value == old(value) && transactionType == old(transactionType) && isEdit == old(isEdit)
      ensures targetTypeSignal == old(targetTypeSignal) && paymentMethodSignal == old(paymentMethodSignal)
    {
      var req := required + {AmountField, DescriptionField, DateField};
      if transactionType == ExpenseKind {
        req := req + {BudgetField};
        req := req - {ReceivingAccountField} - {ReceivingCardField};
        if value.paymentMethod == CardTarget {
          req := req + {CreditCardField} - {PaymentAccountField};
        } else {
          req := req - {CreditCardField} + {PaymentAccountField};
        }
      } else {
        req := req - {BudgetField} - {CreditCardField} - {PaymentAccountField};
        if value.targetType == AccountTarget {
          req := req + {ReceivingAccountField} - {ReceivingCardField};
        } else {
          req := req - {ReceivingAccountField} + {ReceivingCardField};
        }
      }
      forall f: Field
        ensures f in req <==> f in RequiredFields(transactionType, value.paymentMethod, value.targetType)
      {
        match f
        case AmountField =>
        case DescriptionField =>
        case DateField =>
        case BudgetField =>
        case CreditCardField =>
        case PaymentAccountField =>
        case ReceivingAccountField =>
        case ReceivingCardField =>
      }
      required := req;
    }

    /** `patchForm`: the edited transaction's fields, read as the resolved kind. */
    method PatchForm()
      requires data.transaction.Some? && Consistent(data) && transactionType == ResolveType(data)
      modifies this
      ensures Valid()
      ensures transactionType == old(transactionType) && isEdit == old(isEdit)
      ensures IsExpense(data.transaction.value) ==>
        value == ExpenseValue(old(value), data.transaction.value.expense)
        && paymentMethodSignal == data.transaction.value.expense.info.paymentMethod
      ensures IsIncome(data.transaction.value) ==>
        value == IncomeValue(old(value), data.transaction.value.income)
        && targetTypeSignal == data.transaction.value.income.info.targetType
    {
      match data.transaction.value {
        case Exp(e) =>
          value := ExpenseValue(value, e);
          paymentMethodSignal := e.info.paymentMethod;
        case Inc(i) =>
          value := IncomeValue(value, i);
          targetTypeSignal := i.info.targetType;
      }
      UpdateValidators();
    }

    /** A value typed into the form (`valueChanges`). */
    method OnValueChange(v: FormValue)
      modifies this
      ensures Valid() && value == v && transactionType == old(transactionType) && isEdit == old(isEdit)
      ensures targetTypeSignal == old(targetTypeSignal) && paymentMethodSignal == old(paymentMethodSignal)
    {
      value := v;
      UpdateValidators();
    }

    method OnTypeChange(kind: Kind)
      modifies this
      ensures Valid() && transactionType == kind && value == old(value) && isEdit == old(isEdit)
      ensures targetTypeSignal == old(targetTypeSignal) && paymentMethodSignal == old(paymentMethodSignal)
    {
      transactionType := kind;
      UpdateValidators();
    }

    method OnPaymentMethodChange(payment: TargetType)
      modifies this
      ensures Valid() && paymentMethodSignal == payment
      ensures value == old(value).(paymentMethod := payment) && transactionType == old(transactionType)
      ensures isEdit == old(isEdit) && targetTypeSignal == old(targetTypeSignal)
    {
      paymentMethodSignal := payment;
      value := value.(paymentMethod := payment);
      UpdateValidators();
    }

    method OnTargetTypeChange(target: TargetType)
      modifies this
      ensures Valid() && targetTypeSignal == target
      ensures value == old(value).(targetType := target) && transactionType == old(transactionType)
      ensures isEdit == old(isEdit) && paymentMethodSignal == old(paymentMethodSignal)
    {
      targetTypeSignal := target;
      value := value.(targetType := target);
      UpdateValidators();
    }

    /** The id the payload carries: the edited transaction's in edit mode. */
    function EditId(): (r: Option<string>)
      reads this
      ensures r.Some? <==> isEdit && data.transaction.Some?
      ensures r.Some? ==> r.value == TransactionId(data.transaction.value)
    {
      if isEdit && data.transaction.Some? then Some(TransactionId(data.transaction.value)) else None
    }

    /** `onSubmit`: an invalid form closes nothing; a valid one closes with
        the kind and the payload built from the form. */
    method Submit() returns (r: Option<Closed>)
      requires Valid()
      ensures r.Some? <==> FormValid(value, required)
      ensures r.Some? ==> r.value == Closed(transactionType, BuildPayload(transactionType, value, EditId()))
    {
      if FormValid(value, required) {
        ValidFormGivesCompletePayload(transactionType, value, EditId());
        r := Some(Closed(transactionType, BuildPayload(transactionType, value, EditId())));
      } else {
        r := None;
      }
    }
  }
}
