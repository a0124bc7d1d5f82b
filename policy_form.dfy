/**
 * The reactive form behind the policy wizard (`NewPolicy`, `EditPolicy`):
 * its controls and their validators as `initializeForm` declares them, what
 * each wizard step checks and touches, the whole-form validity `onSubmit`
 * tests, the back-filling of a loaded policy (`populateForm`), and the end
 * date `calculateEndDate` derives.
 *
 * The form is a map from control to value; a control is named by its group
 * and its name within that group, as `formGroup.get(name)` finds it.
 */
module PolicyForm {
  import opened Wrappers
  import opened Text

  /** The form group a control sits in. */
  datatype Group = Root | Holder | Address | Kyc | Nominee | Agent

  datatype ControlId = ControlId(group: Group, name: string)

  /** A control value: text as an input yields it, or a number. */
  datatype FieldValue = Str(s: string) | Num(n: int)

  /* ---------- controls ---------- */

  const PolicyStepControls: seq<ControlId> := [
    ControlId(Root, "policyNumber"), ControlId(Root, "policyType"), ControlId(Root, "planCode"),
    ControlId(Root, "policyTerm"), ControlId(Root, "premiumTerm"), ControlId(Root, "sumAssured"),
    ControlId(Root, "premiumAmount"), ControlId(Root, "premiumFrequency"), ControlId(Root, "policyStartDate"),
    ControlId(Root, "policyEndDate")]

  const HolderStepControls: seq<ControlId> := [
    ControlId(Holder, "fullName"), ControlId(Holder, "dateOfBirth"), ControlId(Holder, "gender"),
    ControlId(Holder, "mobile"), ControlId(Holder, "email")]

  const AddressStepControls: seq<ControlId> := [
    ControlId(Address, "addressLine1"), ControlId(Address, "district"), ControlId(Address, "state"),
    ControlId(Address, "pincode")]

  const NomineeStepControls: seq<ControlId> := [
    ControlId(Nominee, "name"), ControlId(Nominee, "relationship"), ControlId(Nominee, "dateOfBirth"),
    ControlId(Nominee, "percentage")]

  const AgentStepControls: seq<ControlId> := [
    ControlId(Agent, "agentCode"), ControlId(Agent, "agentName"), ControlId(Agent, "branchCode")]

  /** Controls of the form that no wizard step checks. */
  const UncheckedControls: seq<ControlId> := [
    ControlId(Root, "policyStatus"), ControlId(Address, "village"), ControlId(Address, "mandal"),
    ControlId(Kyc, "aadhaarNumber"), ControlId(Kyc, "panNumber")]

  /** Every control `initializeForm` creates. */
  const AllControls: set<ControlId> :=
    set id | id in PolicyStepControls + HolderStepControls + AddressStepControls + NomineeStepControls
                   + AgentStepControls + UncheckedControls

  const StatusControl: ControlId := ControlId(Root, "policyStatus")
  const PercentageControl: ControlId := ControlId(Nominee, "percentage")
  const StartDateControl: ControlId := ControlId(Root, "policyStartDate")
  const EndDateControl: ControlId := ControlId(Root, "policyEndDate")
  const PolicyTermControl: ControlId := ControlId(Root, "policyTerm")
  const MobileControl: ControlId := ControlId(Holder, "mobile")
  const PincodeControl: ControlId := ControlId(Address, "pincode")
  const AadhaarControl: ControlId := ControlId(Kyc, "aadhaarNumber")
  const PanControl: ControlId := ControlId(Kyc, "panNumber")
  const SumAssuredControl: ControlId := ControlId(Root, "sumAssured")
  const PremiumAmountControl: ControlId := ControlId(Root, "premiumAmount")

  /** The date controls `populateForm` passes through its `formatDate`. */
  const DateControls: set<ControlId> :=
    {StartDateControl, EndDateControl, ControlId(Holder, "dateOfBirth"), ControlId(Nominee, "dateOfBirth")}

  /** The initial value of a control: 'ACTIVE' for the status, 100 for the percentage, '' otherwise. */
  function InitialValue(id: ControlId): FieldValue {
    if id == StatusControl then Str("ACTIVE")
    else if id == PercentageControl then Num(100)
    else Str("")
  }

  /** The form `initializeForm` builds. */
  function InitialValues(): (r: map<ControlId, FieldValue>)
    ensures r.Keys == AllControls
  {
    map id | id in AllControls :: InitialValue(id)
  }

  /* ---------- validators ---------- */

  datatype Pattern = TenDigits | SixDigits | TwelveDigits | PanFormat

  /** `^[0-9]{10}$`, `^[0-9]{6}$`, `^[0-9]{12}$` and `^[A-Z]{5}[0-9]{4}[A-Z]{1}$`. */
  predicate PatternHolds(p: Pattern, s: string) {
    match p
    case TenDigits => |s| == 10 && AllDigits(s)
    case SixDigits => |s| == 6 && AllDigits(s)
    case TwelveDigits => |s| == 12 && AllDigits(s)
    case PanFormat =>
      |s| == 10 && (forall k :: 0 <= k < 5 ==> IsUpperLetter(s[k]))
      && (forall k :: 5 <= k < 9 ==> IsDigit(s[k])) && IsUpperLetter(s[9])
  }

  /** The Angular validators the form uses. */
  datatype Validator = Required | AtLeast(bound: int) | AtMost(bound: int) | Matches(pattern: Pattern) | Email

  /**
   * The validators `initializeForm` attaches to each control: every control is
   * required except the village, the mandal and the two KYC numbers; only the
   * holder's email carries the email validator.
   */
  function ValidatorsOf(id: ControlId): (r: seq<Validator>)
    ensures Required in r <==>
              id.group != Kyc && !(id.group == Address && (id.name == "village" || id.name == "mandal"))
    ensures Email in r <==> id == ControlId(Holder, "email")
    ensures |r| <= 3
  {
    match id.group
    case Root =>
      if id.name == "policyTerm" || id.name == "premiumTerm" then [Required, AtLeast(1)]
      else if id.name == "sumAssured" then [Required, AtLeast(10000)]
      else if id.name == "premiumAmount" then [Required, AtLeast(100)]
      else [Required]
    case Holder =>
      if id.name == "mobile" then [Required, Matches(TenDigits)]
      else if id.name == "email" then [Required, Email]
      else [Required]
    case Address =>
      if id.name == "village" || id.name == "mandal" then []
      else if id.name == "pincode" then [Required, Matches(SixDigits)]
      else [Required]
    case Kyc =>
      if id.name == "aadhaarNumber" then [Matches(TwelveDigits)]
      else if id.name == "panNumber" then [Matches(PanFormat)]
      else []
    case Nominee =>
      if id.name == "percentage" then [Required, AtLeast(1), AtMost(100)] else [Required]
    case Agent => [Required]
  }

  /** An empty input, which every validator but `required` lets through. */
  predicate IsEmptyInput(v: FieldValue) { v == Str("") }

  /** `parseFloat` of a value, on integer text; `None` stands for NaN. */
  function NumericValue(v: FieldValue): Option<int> {
    match v
    case Num(n) => Some(n)
    case Str(s) => if IsIntText(s) then Some(ParseInt(s)) else None
  }

  /** The string a pattern or the email check tests. */
  function AsText(v: FieldValue): string {
    match v
    case Str(s) => s
    case Num(n) => IntToString(n)
  }

  /** Whether one validator accepts a value; email syntax is the given predicate. */
  predicate Passes(validator: Validator, v: FieldValue, emailOk: string -> bool) {
    match validator
    case Required => !IsEmptyInput(v)
    case AtLeast(bound) => IsEmptyInput(v) || NumericValue(v).None? || NumericValue(v).value >= bound
    case AtMost(bound) => IsEmptyInput(v) || NumericValue(v).None? || NumericValue(v).value <= bound
    case Matches(p) => IsEmptyInput(v) || PatternHolds(p, AsText(v))
    case Email => IsEmptyInput(v) || emailOk(AsText(v))
  }

  /** A control is valid when every one of its validators accepts its value. */
  predicate ControlValid(id: ControlId, v: FieldValue, emailOk: string -> bool) {
    forall k :: 0 <= k < |ValidatorsOf(id)| ==> Passes(ValidatorsOf(id)[k], v, emailOk)
  }

  /** A control with one validator is valid when that validator accepts. */
  lemma ControlValidOfOne(id: ControlId, v: FieldValue, emailOk: string -> bool)
    requires |ValidatorsOf(id)| == 1
    ensures ControlValid(id, v, emailOk) <==> Passes(ValidatorsOf(id)[0], v, emailOk)
  {
  }

  /** A control with two validators is valid when both accept. */
  lemma ControlValidOfTwo(id: ControlId, v: FieldValue, emailOk: string -> bool)
    requires |ValidatorsOf(id)| == 2
    ensures ControlValid(id, v, emailOk) <==>
              Passes(ValidatorsOf(id)[0], v, emailOk) && Passes(ValidatorsOf(id)[1], v, emailOk)
  {
    if Passes(ValidatorsOf(id)[0], v, emailOk) && Passes(ValidatorsOf(id)[1], v, emailOk) {
      forall k | 0 <= k < 2 ensures Passes(ValidatorsOf(id)[k], v, emailOk) {
        assert k == 0 || k == 1;
      }
    }
  }

  /* ---------- field constraints ---------- */

  /** Mobile: exactly ten digits. */
  lemma MobileConstraint(s: string, emailOk: string -> bool)
    ensures ControlValid(MobileControl, Str(s), emailOk) <==> |s| == 10 && AllDigits(s)
  {
    assert ValidatorsOf(MobileControl) == [Required, Matches(TenDigits)];
    ControlValidOfTwo(MobileControl, Str(s), emailOk);
  }

  /** Pincode: exactly six digits. */
  lemma PincodeConstraint(s: string, emailOk: string -> bool)
    ensures ControlValid(PincodeControl, Str(s), emailOk) <==> |s| == 6 && AllDigits(s)
  {
    assert ValidatorsOf(PincodeControl) == [Required, Matches(SixDigits)];
    ControlValidOfTwo(PincodeControl, Str(s), emailOk);
  }

  /** Aadhaar: optional, twelve digits when given. */
  lemma AadhaarConstraint(s: string, emailOk: string -> bool)
    ensures ControlValid(AadhaarControl, Str(s), emailOk) <==> s == "" || (|s| == 12 && AllDigits(s))
  {
    assert ValidatorsOf(AadhaarControl) == [Matches(TwelveDigits)];
    ControlValidOfOne(AadhaarControl, Str(s), emailOk);
  }

  /** PAN: optional, five capitals, four digits and a capital when given. */
  lemma PanConstraint(s: string, emailOk: string -> bool)
    ensures ControlValid(PanControl, Str(s), emailOk) <==> s == "" || PatternHolds(PanFormat, s)
  {
    assert ValidatorsOf(PanControl) == [Matches(PanFormat)];
    ControlValidOfOne(PanControl, Str(s), emailOk);
  }

  /** Nominee percentage: a number from 1 to 100. */
  lemma PercentageConstraint(n: int, emailOk: string -> bool)
    ensures ControlValid(PercentageControl, Num(n), emailOk) <==> 1 <= n <= 100
  {
    assert ValidatorsOf(PercentageControl) == [Required, AtLeast(1), AtMost(100)];
    if 1 <= n <= 100 {
      assert Passes(AtLeast(1), Num(n), emailOk) && Passes(AtMost(100), Num(n), emailOk);
    } else if n < 1 {
      assert !Passes(ValidatorsOf(PercentageControl)[1], Num(n), emailOk);
    } else {
      assert !Passes(ValidatorsOf(PercentageControl)[2], Num(n), emailOk);
    }
  }

  /** Amounts and terms: at least 10000 assured, at least 100 premium, terms of at least 1. */
  lemma AmountConstraints(n: int, emailOk: string -> bool)
    ensures ControlValid(SumAssuredControl, Num(n), emailOk) <==> n >= 10000
    ensures ControlValid(PremiumAmountControl, Num(n), emailOk) <==> n >= 100
    ensures ControlValid(PolicyTermControl, Num(n), emailOk) <==> n >= 1
    ensures ControlValid(ControlId(Root, "premiumTerm"), Num(n), emailOk) <==> n >= 1
  {
    assert ValidatorsOf(SumAssuredControl) == [Required, AtLeast(10000)];
    assert ValidatorsOf(PremiumAmountControl) == [Required, AtLeast(100)];
    assert ValidatorsOf(PolicyTermControl) == [Required, AtLeast(1)];
    assert ValidatorsOf(ControlId(Root, "premiumTerm")) == [Required, AtLeast(1)];
    ControlValidOfTwo(SumAssuredControl, Num(n), emailOk);
    ControlValidOfTwo(PremiumAmountControl, Num(n), emailOk);
    ControlValidOfTwo(PolicyTermControl, Num(n), emailOk);
    ControlValidOfTwo(ControlId(Root, "premiumTerm"), Num(n), emailOk);
  }

  /* ---------- steps ---------- */

  /** The listed controls the form holds: what `formGroup.get(name)` finds. */
  function Existing(ids: seq<ControlId>, values: map<ControlId, FieldValue>): (r: set<ControlId>)
    ensures forall id :: id in r <==> id in ids && id in values
  {
    set id | id in ids && id in values
  }

  /** No listed, existing control is invalid. */
  predicate GroupValid(ids: seq<ControlId>, values: map<ControlId, FieldValue>, emailOk: string -> bool) {
    forall k :: 0 <= k < |ids| && ids[k] in values ==> ControlValid(ids[k], values[ids[k]], emailOk)
  }

  const TotalSteps: int := 4

  /**
   * What `validateCurrentStep` answers for a step: a step outside 1..4
   * passes, and so does every step of a form whose controls are all valid.
   */
  predicate StepValid(step: int, values: map<ControlId, FieldValue>, emailOk: string -> bool)
    ensures !(1 <= step <= TotalSteps) ==> StepValid(step, values, emailOk)
    ensures FormValid(values, emailOk) ==> StepValid(step, values, emailOk)
  {
    if step == 1 then GroupValid(PolicyStepControls, values, emailOk)
    else if step == 2 then GroupValid(HolderStepControls, values, emailOk) && GroupValid(AddressStepControls, values, emailOk)
    else if step == 3 then GroupValid(NomineeStepControls, values, emailOk)
    else if step == 4 then GroupValid(AgentStepControls, values, emailOk)
    else true
  }

  /**
   * The controls validating a step marks touched: step 2 reaches its address
   * controls only when the holder controls pass, because of `&&`.
   */
  function StepTouches(step: int, values: map<ControlId, FieldValue>, emailOk: string -> bool): set<ControlId> {
    if step == 1 then Existing(PolicyStepControls, values)
    else if step == 2 then
      Existing(HolderStepControls, values)
      + (if GroupValid(HolderStepControls, values, emailOk) then Existing(AddressStepControls, values) else {})
    else if step == 3 then Existing(NomineeStepControls, values)
    else if step == 4 then Existing(AgentStepControls, values)
    else {}
  }

  /** The first of steps 1..n that fails, if any. */
  function FirstFailing(values: map<ControlId, FieldValue>, emailOk: string -> bool, n: int): (r: Option<int>)
    ensures r.None? <==> forall i :: 1 <= i <= n ==> StepValid(i, values, emailOk)
    ensures r.Some? ==> 1 <= r.value <= n && !StepValid(r.value, values, emailOk)
    ensures r.Some? ==> forall i :: 1 <= i < r.value ==> StepValid(i, values, emailOk)
    decreases n
  {
    if n < 1 then None
    else match FirstFailing(values, emailOk, n - 1)
      case Some(i) => Some(i)
      case None => if StepValid(n, values, emailOk) then None else Some(n)
  }

  /** The controls validating steps 1..n in turn marks touched. */
  function TouchedUpTo(values: map<ControlId, FieldValue>, emailOk: string -> bool, n: int): (r: set<ControlId>)
    ensures forall i :: 1 <= i <= n ==> StepTouches(i, values, emailOk) <= r
    decreases n
  {
    if n < 1 then {} else TouchedUpTo(values, emailOk, n - 1) + StepTouches(n, values, emailOk)
  }

  /** `policyForm.valid`: every control of the form is valid. */
  predicate FormValid(values: map<ControlId, FieldValue>, emailOk: string -> bool) {
    forall id :: id in values ==> ControlValid(id, values[id], emailOk)
  }

  /** A valid form passes every step. */
  lemma FormValidPassesEveryStep(values: map<ControlId, FieldValue>, emailOk: string -> bool, step: int)
    requires FormValid(values, emailOk)
    ensures StepValid(step, values, emailOk)
  {
    forall ids | ids in [PolicyStepControls, HolderStepControls, AddressStepControls, NomineeStepControls, AgentStepControls]
      ensures GroupValid(ids, values, emailOk)
    {
      forall k | 0 <= k < |ids| && ids[k] in values
        ensures ControlValid(ids[k], values[ids[k]], emailOk)
      {
        var id := ids[k];
        assert id in values;
      }
    }
  }

  /** Changing a control outside a group changes neither the group's verdict nor its existing controls. */
  lemma GroupIgnoresOthers(ids: seq<ControlId>, values: map<ControlId, FieldValue>, emailOk: string -> bool, id: ControlId, v: FieldValue)
    requires id !in ids
    ensures GroupValid(ids, values[id := v], emailOk) == GroupValid(ids, values, emailOk)
    ensures Existing(ids, values[id := v]) == Existing(ids, values)
  {
    var changed := values[id := v];
    forall k | 0 <= k < |ids|
      ensures ids[k] in changed <==> ids[k] in values
      ensures ids[k] in values ==> changed[ids[k]] == values[ids[k]]
    {
      assert ids[k] != id;
    }
  }

  /** The unchecked controls belong to no step's group (one lemma per step keeps each proof small). */
  lemma UncheckedNotInPolicyStep(id: ControlId)
    requires id in UncheckedControls
    ensures id !in PolicyStepControls
  {
  }

  lemma UncheckedNotInHolderOrAddressStep(id: ControlId)
    requires id in UncheckedControls
    ensures id !in HolderStepControls && id !in AddressStepControls
  {
  }

  lemma UncheckedNotInNomineeStep(id: ControlId)
    requires id in UncheckedControls
    ensures id !in NomineeStepControls
  {
  }

  lemma UncheckedNotInAgentStep(id: ControlId)
    requires id in UncheckedControls
    ensures id !in AgentStepControls
  {
  }

  /** No step reads the KYC controls or the status, so changing them never changes a step's verdict or touches. */
  lemma StepsIgnoreUncheckedControls(step: int, values: map<ControlId, FieldValue>, emailOk: string -> bool, id: ControlId, v: FieldValue)
    requires id in UncheckedControls
    ensures StepValid(step, values[id := v], emailOk) == StepValid(step, values, emailOk)
    ensures StepTouches(step, values[id := v], emailOk) == StepTouches(step, values, emailOk)
  {
    if step == 1 {
      UncheckedNotInPolicyStep(id);
      GroupIgnoresOthers(PolicyStepControls, values, emailOk, id, v);
    } else if step == 2 {
      UncheckedNotInHolderOrAddressStep(id);
      GroupIgnoresOthers(HolderStepControls, values, emailOk, id, v);
      GroupIgnoresOthers(AddressStepControls, values, emailOk, id, v);
    } else if step == 3 {
      UncheckedNotInNomineeStep(id);
      GroupIgnoresOthers(NomineeStepControls, values, emailOk, id, v);
    } else if step == 4 {
      UncheckedNotInAgentStep(id);
      GroupIgnoresOthers(AgentStepControls, values, emailOk, id, v);
    }
  }

  /** A short Aadhaar number fails the form although no step looks at it. */
  lemma ShortAadhaarFailsForm(values: map<ControlId, FieldValue>, emailOk: string -> bool)
    requires AadhaarControl in values && values[AadhaarControl] == Str("123")
    ensures !FormValid(values, emailOk)
  {
    assert !Passes(ValidatorsOf(AadhaarControl)[0], values[AadhaarControl], emailOk);
  }

  /** A nominee percentage outside 1..100 fails step 3. */
  lemma BadPercentageFailsNomineeStep(values: map<ControlId, FieldValue>, emailOk: string -> bool, n: int)
    requires PercentageControl in values && values[PercentageControl] == Num(n)
    requires n < 1 || n > 100
    ensures !StepValid(3, values, emailOk)
  {
    PercentageConstraint(n, emailOk);
    assert NomineeStepControls[3] == PercentageControl;
  }

  /* ---------- back-filling a loaded policy ---------- */

  /** A value `||` replaces: '' and 0. */
  predicate Truthy(v: FieldValue) { v != Str("") && v != Num(0) }

  /** The inner `formatDate` of `populateForm`: '' stays '', otherwise the part before 'T'. */
  function FormatDate(s: string): (r: string)
    ensures s == "" ==> r == ""
    ensures |r| <= |s| && r == s[..|r|] && 'T' !in r
    ensures 'T' !in s ==> r == s
    ensures |r| < |s| ==> s[|r|] == 'T'
  {
    if s == "" then "" else Before(s, 'T')
  }

  /** Formatting a formatted date changes nothing. */
  lemma FormatDateIdempotent(s: string)
    ensures FormatDate(FormatDate(s)) == FormatDate(s)
  {
  }

  /** The value a missing field falls back to: a truthy one only for the status and the percentage. */
  function DefaultValue(id: ControlId): (r: FieldValue)
    ensures Truthy(r) <==> id == StatusControl || id == PercentageControl
  {
    if id == StatusControl then Str("ACTIVE")
    else if id == PercentageControl then Num(100)
    else Str("")
  }

  /** The value `populateForm` writes into one control from the loaded field `raw` (`None` when absent). */
  function BackfillField(id: ControlId, raw: Option<FieldValue>): (r: FieldValue)
    ensures id in DateControls ==> r.Str? && 'T' !in r.s
    ensures id !in DateControls && raw.Some? && Truthy(raw.value) ==> r == raw.value
    ensures id !in DateControls && !(raw.Some? && Truthy(raw.value)) ==> r == DefaultValue(id)
  {
    if id in DateControls then
      Str(match raw case Some(Str(s)) => FormatDate(s) case _ => "")
    else if raw.Some? && Truthy(raw.value) then raw.value
    else DefaultValue(id)
  }

  /** `populateForm`: every control of the form back-filled from the loaded record. */
  function Backfill(record: map<ControlId, FieldValue>): (r: map<ControlId, FieldValue>)
    ensures r.Keys == AllControls
    ensures forall id :: id in r ==> r[id] == BackfillField(id, if id in record then Some(record[id]) else None)
  {
    map id | id in AllControls :: BackfillField(id, if id in record then Some(record[id]) else None)
  }

  /** Back-filling the form from its own back-filled values changes nothing. */
  lemma BackfillIdempotent(record: map<ControlId, FieldValue>)
    ensures Backfill(Backfill(record)) == Backfill(record)
  {
    var once := Backfill(record);
    forall id | id in AllControls
      ensures Backfill(once)[id] == once[id]
    {
      var raw := if id in record then Some(record[id]) else None;
      if id in DateControls {
        match raw
        case Some(Str(s)) => FormatDateIdempotent(s);
        case _ =>
      }
    }
  }

  /**
   * The defaults: a missing status becomes 'ACTIVE', a missing percentage 100,
   * and any other missing or empty field '' , which its `required` rejects.
   */
  lemma BackfillDefaults(record: map<ControlId, FieldValue>, emailOk: string -> bool)
    ensures StatusControl !in record ==> Backfill(record)[StatusControl] == Str("ACTIVE")
    ensures PercentageControl !in record ==> Backfill(record)[PercentageControl] == Num(100)
    ensures forall id :: id in AllControls && id != StatusControl && id != PercentageControl && id !in record ==>
              Backfill(record)[id] == Str("")
  {
    var r := Backfill(record);
    assert StatusControl in AllControls && PercentageControl in AllControls;
    forall id | id in AllControls && id != StatusControl && id != PercentageControl && id !in record
      ensures r[id] == Str("")
    {
      assert r[id] == BackfillField(id, None);
    }
  }

  /** Outside the dates, a back-filled control is non-empty exactly when the record held a truthy value for it. */
  lemma BackfilledFieldSetIffPresent(record: map<ControlId, FieldValue>, id: ControlId)
    requires id in AllControls && id !in DateControls && id != StatusControl && id != PercentageControl
    ensures Backfill(record)[id] != Str("") <==> id in record && Truthy(record[id])
  {
  }

  /* ---------- end date ---------- */

  predicate IsLeapYear(y: int) { y % 4 == 0 && (y % 100 != 0 || y % 400 == 0) }

  function DaysInMonth(y: int, m: int): int {
    if m == 2 then (if IsLeapYear(y) then 29 else 28)
    else if m == 4 || m == 6 || m == 9 || m == 11 then 30
    else 31
  }

  function YearOf(s: string): int requires |s| >= 4 { ParseNat(s[..4]) }
  function MonthOf(s: string): int requires |s| >= 7 { ParseNat(s[5..7]) }
  function DayOf(s: string): int requires |s| >= 10 { ParseNat(s[8..10]) }

  /** A calendar date written `YYYY-MM-DD`, as a date input holds it. */
  predicate IsIsoDate(s: string) {
    |s| == 10 && s[4] == '-' && s[7] == '-'
    && AllDigits(s[..4]) && AllDigits(s[5..7]) && AllDigits(s[8..])
    && 1 <= MonthOf(s) <= 12 && 1 <= DayOf(s) <= DaysInMonth(YearOf(s), MonthOf(s))
  }

  /** `n` in two digits. */
  function Pad2(n: int): (r: string)
    requires 0 <= n < 100
    ensures |r| == 2 && AllDigits(r) && ParseNat(r) == n
  {
    var r := [DigitChar(n / 10), DigitChar(n % 10)];
    assert r[..1] == [DigitChar(n / 10)] && r[..1][..0] == [];
    assert ParseNat(r[..1]) == n / 10;
    assert ParseNat(r) == ParseNat(r[..1]) * 10 + n % 10;
    r
  }

  /** `n` in four digits. */
  function Pad4(n: int): (r: string)
    requires 0 <= n < 10000
    ensures |r| == 4 && AllDigits(r) && ParseNat(r) == n
  {
    var hi := Pad2(n / 100);
    var lo := Pad2(n % 100);
    var r := hi + lo;
    assert r[..3] == hi + [lo[0]];
    assert (hi + [lo[0]])[..2] == hi;
    assert ParseNat(hi + [lo[0]]) == ParseNat(hi) * 10 + DigitValue(lo[0]);
    assert ParseNat(lo) == ParseNat([lo[0]]) * 10 + DigitValue(lo[1]) by {
      assert lo[..1] == [lo[0]];
    }
    assert ParseNat([lo[0]]) == DigitValue(lo[0]) by {
      assert [lo[0]][..0] == [];
    }
    r
  }

  /** `YYYY-MM-DD` of a year, month and day. */
  function IsoDate(y: int, m: int, d: int): (r: string)
    requires 0 <= y < 10000 && 1 <= m <= 12 && 1 <= d <= DaysInMonth(y, m)
    ensures IsIsoDate(r) && YearOf(r) == y && MonthOf(r) == m && DayOf(r) == d
  {
    var r := Pad4(y) + "-" + Pad2(m) + "-" + Pad2(d);
    assert r[..4] == Pad4(y);
    assert r[5..7] == Pad2(m);
    assert r[8..] == r[8..10] == Pad2(d);
    r
  }

  /** `parseInt` of the term, on integer text; `None` stands for NaN. */
  function TermYears(v: FieldValue): Option<int> {
    NumericValue(v)
  }

  /**
   * The end date `calculateEndDate` writes: the start date moved `years` years
   * on, a 29 February landing in a common year rolling over to 1 March as
   * `setFullYear` does. `None` when the start is not a `YYYY-MM-DD` date or the
   * new year leaves 0..9999.
   */
  function EndDate(start: string, years: int): (r: Option<string>)
    ensures r.None? <==> !IsIsoDate(start) || !(0 <= YearOf(start) + years < 10000)
    ensures r.Some? ==> IsIsoDate(r.value) && YearOf(r.value) == YearOf(start) + years
    ensures r.Some? && !(MonthOf(start) == 2 && DayOf(start) == 29) ==>
              MonthOf(r.value) == MonthOf(start) && DayOf(r.value) == DayOf(start)
    ensures r.Some? && MonthOf(start) == 2 && DayOf(start) == 29 ==>
              if IsLeapYear(YearOf(start) + years) then MonthOf(r.value) == 2 && DayOf(r.value) == 29
              else MonthOf(r.value) == 3 && DayOf(r.value) == 1
  {
    if !IsIsoDate(start) then None
    else
      var y := YearOf(start) + years;
      if !(0 <= y < 10000) then None
      else if MonthOf(start) == 2 && DayOf(start) == 29 && !IsLeapYear(y) then Some(IsoDate(y, 3, 1))
      else Some(IsoDate(y, MonthOf(start), DayOf(start)))
  }

  /**
   * The end date `calculateEndDate` patches in, if any: only when both the
   * start date and the term are present, the start is a `YYYY-MM-DD` date and
   * the term reads as an integer.
   */
  function EndDatePatch(values: map<ControlId, FieldValue>): (r: Option<string>)
    requires StartDateControl in values && PolicyTermControl in values
    ensures r.Some? ==> Truthy(values[StartDateControl]) && Truthy(values[PolicyTermControl])
    ensures r.Some? ==>
              values[StartDateControl].Str? && TermYears(values[PolicyTermControl]).Some?
              && IsIsoDate(values[StartDateControl].s) && IsIsoDate(r.value)
              && YearOf(r.value) == YearOf(values[StartDateControl].s) + TermYears(values[PolicyTermControl]).value
    ensures r.None? && Truthy(values[StartDateControl]) && Truthy(values[PolicyTermControl])
            && values[StartDateControl].Str? && TermYears(values[PolicyTermControl]).Some? ==>
              !IsIsoDate(values[StartDateControl].s)
              || !(0 <= YearOf(values[StartDateControl].s) + TermYears(values[PolicyTermControl]).value < 10000)
  {
    var start := values[StartDateControl];
    var term := values[PolicyTermControl];
    if Truthy(start) && Truthy(term) && start.Str? && TermYears(term).Some? then
      EndDate(start.s, TermYears(term).value)
    else None
  }
}
