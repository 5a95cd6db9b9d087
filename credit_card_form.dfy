/** The add/edit credit-card dialog
    (src/app/credit-cards/credit-card-form/credit-card-form.component.ts):
    its controls and validators, the controls it disables for a cancelled
    card, and the value it closes with. A control that holds null is None. */
module CreditCardForm {
  import opened Wrappers
  import opened Models
  import opened Text

  datatype CardFormValue = CardFormValue(
    displayName: Option<string>,
    monthlyChargeDate: Option<int>,
    chargeAccountId: Option<string>,
    expiryDate: Option<string>,
    isVirtual: Option<bool>)

  /** `cardForm.value`: a disabled control's key is missing (outer None). */
  datatype Submitted = Submitted(
    displayName: Option<string>,
    monthlyChargeDate: Option<Option<int>>,
    chargeAccountId: Option<Option<string>>,
    expiryDate: Option<Option<string>>,
    isVirtual: Option<Option<bool>>)

  const MaxDisplayNameLength: nat := 50
  const DefaultChargeDate: int := 10

  /** `/^(0[1-9]|1[0-2])\/\d{2}$/`. */
  predicate ExpiryPattern(s: string) {
    && |s| == 5
    && ((s[0] == '0' && '1' <= s[1] <= '9') || (s[0] == '1' && '0' <= s[1] <= '2'))
    && s[2] == '/' && IsDigit(s[3]) && IsDigit(s[4])
  }

  /** The text `MM/YY` for a month 1..12 and a two-digit year 0..99. */
  function FormatExpiry(month: int, year: int): (s: string)
    requires 1 <= month <= 12 && 0 <= year <= 99
    ensures |s| == 5 && s[2] == '/'
  {
    [DigitChar(month / 10), DigitChar(month % 10), '/', DigitChar(year / 10), DigitChar(year % 10)]
  }

  function DigitValue(c: char): int { c as int - '0' as int }

  /** Every text the pattern accepts is the `MM/YY` of its own month and year. */
  lemma PatternIsFormatted(s: string)
    requires ExpiryPattern(s)
    ensures var m := DigitValue(s[0]) * 10 + DigitValue(s[1]);
      var y := DigitValue(s[3]) * 10 + DigitValue(s[4]);
      1 <= m <= 12 && 0 <= y <= 99 && s == FormatExpiry(m, y)
  {
    var m := DigitValue(s[0]) * 10 + DigitValue(s[1]);
    var y := DigitValue(s[3]) * 10 + DigitValue(s[4]);
    assert m / 10 == DigitValue(s[0]) && m % 10 == DigitValue(s[1]);
    assert y / 10 == DigitValue(s[3]) && y % 10 == DigitValue(s[4]);
  }

  /** Every month 1..12 and two-digit year are accepted. */
  lemma FormattedMatchesPattern(m: int, y: int)
    requires 1 <= m <= 12 && 0 <= y <= 99
    ensures ExpiryPattern(FormatExpiry(m, y))
  {
  }

  /** The pattern accepts exactly the texts `MM/YY` of a month 1..12 and any
      two digits. */
  lemma ExpiryPatternExact(s: string)
    ensures ExpiryPattern(s) <==> exists m, y :: 1 <= m <= 12 && 0 <= y <= 99 && s == FormatExpiry(m, y)
  {
    if ExpiryPattern(s) {
      PatternIsFormatted(s);
      var m := DigitValue(s[0]) * 10 + DigitValue(s[1]);
      var y := DigitValue(s[3]) * 10 + DigitValue(s[4]);
      assert 1 <= m <= 12 && 0 <= y <= 99 && s == FormatExpiry(m, y);
    }
    if exists m, y :: 1 <= m <= 12 && 0 <= y <= 99 && s == FormatExpiry(m, y) {
      var m, y :| 1 <= m <= 12 && 0 <= y <= 99 && s == FormatExpiry(m, y);
      FormattedMatchesPattern(m, y);
    }
  }

  /** The validators field by field. The expiry date is optional: an empty
      value passes `Validators.pattern`. */
  predicate DisplayNameOk(v: CardFormValue) { Truthy(v.displayName) && |v.displayName.value| <= MaxDisplayNameLength }
  predicate ChargeDateOk(v: CardFormValue) { v.monthlyChargeDate.Some? && 1 <= v.monthlyChargeDate.value <= 31 }
  predicate AccountOk(v: CardFormValue) { Truthy(v.chargeAccountId) }
  predicate ExpiryOk(v: CardFormValue) { !Truthy(v.expiryDate) || ExpiryPattern(v.expiryDate.value) }

  /** `cardForm.valid`: disabled controls are not validated. */
  predicate FormValid(v: CardFormValue, locked: bool)
    ensures FormValid(v, locked) ==> DisplayNameOk(v)
  {
    DisplayNameOk(v) && (locked || (ChargeDateOk(v) && AccountOk(v) && ExpiryOk(v)))
  }

  /** Locking the form only relaxes validation: whatever passes unlocked
      passes locked, and a locked form needs only its display name. */
  lemma LockingRelaxes(v: CardFormValue)
    ensures FormValid(v, false) ==> FormValid(v, true)
    ensures FormValid(v, true) <==> DisplayNameOk(v)
  {
  }

  /** The controls as the form builder creates them. */
  function InitialValue(): (v: CardFormValue)
    ensures v.monthlyChargeDate == Some(DefaultChargeDate) && v.isVirtual == Some(false)
  {
    CardFormValue(Some(""), Some(DefaultChargeDate), Some(""), Some(""), Some(false))
  }

  /** A new card's form is invalid until it gets a name and an account. */
  lemma NewFormNeedsNameAndAccount()
    ensures !FormValid(InitialValue(), false)
    ensures var v := InitialValue().(displayName := Some("Visa"), chargeAccountId := Some("account-1"));
      FormValid(v, false)
  {
  }

  /** `patchValue(card)`: every detail the card carries; an optional detail
      the card lacks leaves its control as it was. */
  function PatchValue(base: CardFormValue, d: CardDetails): (v: CardFormValue)
    ensures v.displayName == Some(d.displayName) && v.monthlyChargeDate == Some(d.monthlyChargeDate)
    ensures v.chargeAccountId == Some(d.chargeAccountId)
    ensures v.expiryDate == (if d.expiryDate.Some? then d.expiryDate else base.expiryDate)
    ensures v.isVirtual == (if d.isVirtual.Some? then d.isVirtual else base.isVirtual)
  {
    CardFormValue(Some(d.displayName), Some(d.monthlyChargeDate), Some(d.chargeAccountId),
      if d.expiryDate.Some? then d.expiryDate else base.expiryDate,
      if d.isVirtual.Some? then d.isVirtual else base.isVirtual)
  }

  /** `cardForm.value` with the disabled controls left out. */
  function FormOutput(v: CardFormValue, locked: bool): (r: Submitted)
    ensures r.displayName == v.displayName
    ensures locked <==> r.monthlyChargeDate.None?
    ensures locked <==> r.chargeAccountId.None? && r.expiryDate.None? && r.isVirtual.None?
    ensures !locked ==> r == Submitted(v.displayName, Some(v.monthlyChargeDate), Some(v.chargeAccountId), Some(v.expiryDate), Some(v.isVirtual))
  {
    if locked then Submitted(v.displayName, None, None, None, None)
    else Submitted(v.displayName, Some(v.monthlyChargeDate), Some(v.chargeAccountId), Some(v.expiryDate), Some(v.isVirtual))
  }

  /** What a valid, unlocked form hands back satisfies every field rule. */
  lemma SubmittedFieldsMeetRules(v: CardFormValue)
    requires FormValid(v, false)
    ensures var r := FormOutput(v, false);
      && Truthy(r.displayName) && |r.displayName.value| <= MaxDisplayNameLength
      && r.monthlyChargeDate.value.Some? && 1 <= r.monthlyChargeDate.value.value <= 31
      && Truthy(r.chargeAccountId.value)
      && (Truthy(r.expiryDate.value) ==> exists m, y :: 1 <= m <= 12 && 0 <= y <= 99 && r.expiryDate.value.value == FormatExpiry(m, y))
  {
    if Truthy(v.expiryDate) {
      ExpiryPatternExact(v.expiryDate.value);
    }
  }

  /** Editing an active card whose details pass the validators and
      submitting it untouched hands back exactly those details. */
  lemma EditRoundTrip(d: CardDetails)
    requires d.displayName != "" && |d.displayName| <= MaxDisplayNameLength
    requires 1 <= d.monthlyChargeDate <= 31 && d.chargeAccountId != ""
    requires d.expiryDate.Some? && (d.expiryDate.value == "" || ExpiryPattern(d.expiryDate.value))
    requires d.isVirtual.Some?
    ensures FormValid(PatchValue(InitialValue(), d), false)
    ensures FormOutput(PatchValue(InitialValue(), d), false)
      == Submitted(Some(d.displayName), Some(Some(d.monthlyChargeDate)), Some(Some(d.chargeAccountId)), Some(d.expiryDate), Some(d.isVirtual))
  {
  }

  class CreditCardFormComponent {
    /** `data.card`. */
    const card: Option<CreditCard>
    var isEdit: bool
    /** The charge date, account, expiry and virtual controls are disabled. */
    var locked: bool
    var value: CardFormValue

    /** The constructor: an edited card is patched in, and a cancelled card
        leaves only its display name editable. */
    constructor (card: Option<CreditCard>)
      ensures this.card == card
      ensures isEdit <==> card.Some?
      ensures locked <==> card.Some? && card.value.status == Inactive
      ensures card.None? ==> value == InitialValue()
      ensures card.Some? ==> value == PatchValue(InitialValue(), card.value.details)
    {
      this.card := card;
      isEdit := false;
      locked := false;
      value := InitialValue();
      if card.Some? {
        isEdit := true;
        value := PatchValue(InitialValue(), card.value.details);
        if card.value.status == Inactive {
          locked := true;
        }
      }
    }

    /** A value typed into the enabled controls; disabled ones keep theirs. */
    method Edit(v: CardFormValue)
      modifies this
      ensures isEdit == old(isEdit) && locked == old(locked)
      ensures !locked ==> value == v
      ensures locked ==> value == old(value).(displayName := v.displayName)
    {
      if locked {
        value := value.(displayName := v.displayName);
      } else {
        value := v;
      }
    }

    /** `onSubmit`: the dialog closes with the form value only when the form is valid. */
    method Submit() returns (r: Option<Submitted>)
      ensures r.Some? <==> FormValid(value, locked)
      ensures r.Some? ==> r.value == FormOutput(value, locked)
    {
      if FormValid(value, locked) {
        r := Some(FormOutput(value, locked));
      } else {
        r := None;
      }
    }
  }
}
