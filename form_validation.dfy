/**
 * The form validation engine (src/composables/useFormValidation.ts): an
 * ordered list of rules per field, the first failing check wins, and two
 * dictionaries, `errors` and `touched`, updated in place.
 */
module FormValidation {
  import opened Wrappers
  import opened Text
  import opened Records

  /** The value a form field holds. */
  datatype FormValue = Null | Undefined | Str(s: string) | Num(n: int) | Bool(b: bool)

  /** JavaScript truthiness: null, undefined, '', 0 and false are falsy. */
  predicate Truthy(v: FormValue) {
    match v
    case Null => false
    case Undefined => false
    case Str(s) => s != ""
    case Num(n) => n != 0
    case Bool(b) => b
  }

  /** `value === null || value === undefined || value === ''`. */
  predicate IsBlank(v: FormValue) {
    v == Null || v == Undefined || v == Str("")
  }

  /** `value.toString()`. */
  function ToText(v: FormValue): string {
    match v
    case Null => "null"
    case Undefined => "undefined"
    case Str(s) => s
    case Num(n) => IntToString(n)
    case Bool(b) => if b then "true" else "false"
  }

  /** A decimal integer literal: digits, optionally after a '-'. */
  predicate IsIntegerText(s: string) {
    (|s| > 0 && AllDigits(s)) || (|s| > 1 && s[0] == '-' && AllDigits(s[1..]))
  }

  /** The value of the digits `s`. */
  function DigitsValue(s: string): (r: nat)
    requires AllDigits(s)
  {
    if s == [] then 0 else DigitsValue(s[..|s| - 1]) * 10 + (s[|s| - 1] - '0') as nat
  }

  /** `Number(value)` where it is an integer; None stands for NaN. */
  function NumberOf(v: FormValue): Option<int> {
    match v
    case Null => Some(0)
    case Undefined => None
    case Str(s) =>
      if s == "" then Some(0)
      else if |s| > 0 && AllDigits(s) then Some(DigitsValue(s))
      else if IsIntegerText(s) then Some(0 - DigitsValue(s[1..]) as int)
      else None
    case Num(n) => Some(n)
    case Bool(b) => Some(if b then 1 else 0)
  }

  /** What a custom check returns: `true`, a message string, or anything else. */
  datatype CustomResult = Pass | Message(text: string) | Other

  /** One rule; an absent bound is None, and `required` is false when absent. */
  datatype ValidationRule = ValidationRule(
    required: bool,
    minLength: Option<int>,
    maxLength: Option<int>,
    min: Option<int>,
    max: Option<int>,
    pattern: Option<string -> bool>,
    custom: Option<FormValue -> CustomResult>)

  const NoRule := ValidationRule(false, None, None, None, None, None, None)

  /** A bound that is present and not 0, as `rule.minLength && ...` tests it. */
  predicate Set(bound: Option<int>) {
    bound.Some? && bound.value != 0
  }

  const RequiredMessage := "This field is required"
  const InvalidFormat := "Invalid format"
  const InvalidValue := "Invalid value"

  function MinLengthMessage(n: int): string { "Minimum " + IntToString(n) + " characters required" }
  function MaxLengthMessage(n: int): string { "Maximum " + IntToString(n) + " characters allowed" }
  function MinValueMessage(n: int): string { "Minimum value is " + IntToString(n) }
  function MaxValueMessage(n: int): string { "Maximum value is " + IntToString(n) }

  /**
   * The checks of one rule in their order: required, minLength, maxLength,
   * min, max, pattern, custom. The message of the first that fails, or None.
   */
  function RuleCheck(rule: ValidationRule, v: FormValue): Option<string> {
    if rule.required && IsBlank(v) then Some(RequiredMessage)
    else if Set(rule.minLength) && Truthy(v) && |ToText(v)| < rule.minLength.value then
      Some(MinLengthMessage(rule.minLength.value))
    else if Set(rule.maxLength) && Truthy(v) && |ToText(v)| > rule.maxLength.value then
      Some(MaxLengthMessage(rule.maxLength.value))
    else if Set(rule.min) && v != Null && v != Undefined && NumberOf(v).Some?
            && NumberOf(v).value < rule.min.value then
      Some(MinValueMessage(rule.min.value))
    else if Set(rule.max) && v != Null && v != Undefined && NumberOf(v).Some?
            && NumberOf(v).value > rule.max.value then
      Some(MaxValueMessage(rule.max.value))
    else if rule.pattern.Some? && Truthy(v) && !rule.pattern.value(ToText(v)) then Some(InvalidFormat)
    else if rule.custom.Some? then
      match rule.custom.value(v)
      case Pass => None
      case Message(m) => Some(m)
      case Other => Some(InvalidValue)
    else None
  }

  /** The message of the first rule that fails, in list order; None when all pass. */
  function FirstFailure(rules: seq<ValidationRule>, v: FormValue): (r: Option<string>)
    ensures r.None? <==> forall i :: 0 <= i < |rules| ==> RuleCheck(rules[i], v).None?
    ensures r.Some? ==> exists i :: (0 <= i < |rules| && RuleCheck(rules[i], v) == r
      && forall j :: 0 <= j < i ==> RuleCheck(rules[j], v).None?)
  {
    if rules == [] then None
    else
      var here := RuleCheck(rules[0], v);
      if here.Some? then here
      else
        var rest := FirstFailure(rules[1..], v);
        assert forall i :: 0 < i < |rules| ==> rules[i] == rules[1..][i - 1];
        rest
  }

  /** `required` fails exactly on null, undefined and '', with its own message. */
  lemma RequiredRule(v: FormValue)
    ensures RuleCheck(NoRule.(required := true), v).Some? <==> v == Null || v == Undefined || v == Str("")
    ensures IsBlank(v) ==> RuleCheck(NoRule.(required := true), v) == Some(RequiredMessage)
  {
  }

  /** A rule whose `required` is set fails a blank value with the required message, whatever else it holds. */
  lemma RequiredComesFirst(rule: ValidationRule, v: FormValue)
    requires rule.required && IsBlank(v)
    ensures RuleCheck(rule, v) == Some(RequiredMessage)
  {
  }

  /**
   * Length and pattern checks never fail a falsy value, and a bound of 0
   * is no bound at all.
   */
  lemma FalsyValueSkipsLengthAndPattern(rule: ValidationRule, v: FormValue)
    requires !Truthy(v)
    requires !rule.required && !Set(rule.min) && !Set(rule.max) && rule.custom.None?
    ensures RuleCheck(rule, v) == None
  {
  }

  lemma ZeroMinLengthIsNoBound(rule: ValidationRule, v: FormValue)
    ensures RuleCheck(rule.(minLength := Some(0)), v) == RuleCheck(rule.(minLength := None), v)
  {
  }

  lemma ZeroMaxLengthIsNoBound(rule: ValidationRule, v: FormValue)
    ensures RuleCheck(rule.(maxLength := Some(0)), v) == RuleCheck(rule.(maxLength := None), v)
  {
  }

  lemma ZeroMinIsNoBound(rule: ValidationRule, v: FormValue)
    ensures RuleCheck(rule.(min := Some(0)), v) == RuleCheck(rule.(min := None), v)
  {
  }

  lemma ZeroMaxIsNoBound(rule: ValidationRule, v: FormValue)
    ensures RuleCheck(rule.(max := Some(0)), v) == RuleCheck(rule.(max := None), v)
  {
  }

  /** min and max are skipped only for null and undefined: 0 is still compared. */
  lemma MinAppliesToZero(m: int)
    requires m > 0
    ensures RuleCheck(NoRule.(min := Some(m)), Num(0)) == Some(MinValueMessage(m))
    ensures RuleCheck(NoRule.(min := Some(m)), Null) == None
    ensures RuleCheck(NoRule.(min := Some(m)), Undefined) == None
  {
  }

  /** A custom result other than `true` fails: a string is the message, anything else 'Invalid value'. */
  lemma CustomOutcome(c: FormValue -> CustomResult, v: FormValue)
    ensures c(v) == Pass ==> RuleCheck(NoRule.(custom := Some(c)), v) == None
    ensures c(v).Message? ==> RuleCheck(NoRule.(custom := Some(c)), v) == Some(c(v).text)
    ensures c(v) == Other ==> RuleCheck(NoRule.(custom := Some(c)), v) == Some(InvalidValue)
  {
  }

  /** When the rules before index i all pass and the i-th fails, that failure is the first. */
  lemma {:induction false} FirstFailureAt(rules: seq<ValidationRule>, v: FormValue, i: nat)
    requires i < |rules| && RuleCheck(rules[i], v).Some?
    requires forall j :: 0 <= j < i ==> RuleCheck(rules[j], v).None?
    ensures FirstFailure(rules, v) == RuleCheck(rules[i], v)
  {
    if i > 0 {
      assert RuleCheck(rules[0], v).None?;
      assert forall j :: 0 <= j < i - 1 ==> rules[1..][j] == rules[j + 1];
      FirstFailureAt(rules[1..], v, i - 1);
    }
  }

  /** Adding rules after a failing one does not change the message. */
  lemma {:induction false} FirstFailureAppend(a: seq<ValidationRule>, b: seq<ValidationRule>, v: FormValue)
    ensures FirstFailure(a + b, v) == if FirstFailure(a, v).Some? then FirstFailure(a, v) else FirstFailure(b, v)
  {
    if a == [] {
      assert a + b == b;
    } else {
      assert (a + b)[0] == a[0];
      if RuleCheck(a[0], v).None? {
        assert (a + b)[1..] == a[1..] + b;
        FirstFailureAppend(a[1..], b, v);
      }
    }
  }

  /** `formData.value[field]`: undefined for a field the form does not hold. */
  function ValueOf(formData: map<string, FormValue>, field: string): FormValue {
    if field in formData then formData[field] else Undefined
  }

  /** The keys of the rules object. */
  function Fields<V>(rules: seq<(string, V)>): (r: set<string>)
    ensures forall i :: 0 <= i < |rules| ==> rules[i].0 in r
    ensures forall f :: f in r ==> HasKey(rules, f)
  {
    set i | 0 <= i < |rules| :: rules[i].0
  }

  /** The first failure of a ruled field on the form's data. */
  function FieldFailure(entry: (string, seq<ValidationRule>), formData: map<string, FormValue>): Option<string> {
    FirstFailure(entry.1, ValueOf(formData, entry.0))
  }

  /** A form with these rules is valid when every ruled field passes its rules. */
  predicate AllFieldsPass(rules: seq<(string, seq<ValidationRule>)>, formData: map<string, FormValue>) {
    forall i :: 0 <= i < |rules| ==> FieldFailure(rules[i], formData).None?
  }

  /** `errors` holds the message of `failure` under `field`, and nothing under it when there is none. */
  predicate Recorded(errors: map<string, string>, field: string, failure: Option<string>) {
    (field in errors <==> failure.Some?) && (failure.Some? ==> errors[field] == failure.value)
  }

  /** `errors` and `before` agree on `field`. */
  predicate SameEntry(errors: map<string, string>, before: map<string, string>, field: string) {
    (field in errors <==> field in before) && (field in errors ==> errors[field] == before[field])
  }

  /** Extending the prefix of the rules by one entry adds that entry's field. */
  lemma FieldsExtend<V>(rules: seq<(string, V)>, i: nat)
    requires i < |rules|
    ensures Fields(rules[..i + 1]) == Fields(rules[..i]) + {rules[i].0}
  {
    assert rules[..i + 1] == rules[..i] + [rules[i]];
  }

  /**
   * Validating the i-th field leaves the errors recorded for the fields
   * before it in place, since their names differ from its own.
   */
  lemma KeepRecorded(rules: seq<(string, seq<ValidationRule>)>, formData: map<string, FormValue>,
                     before: map<string, string>, errors: map<string, string>, i: nat)
    requires DistinctKeys(rules) && i < |rules|
    requires forall j :: 0 <= j < i ==> Recorded(before, rules[j].0, FieldFailure(rules[j], formData))
    requires Recorded(errors, rules[i].0, FieldFailure(rules[i], formData))
    requires forall f :: f != rules[i].0 ==> SameEntry(errors, before, f)
    ensures forall j :: 0 <= j <= i ==> Recorded(errors, rules[j].0, FieldFailure(rules[j], formData))
  {
    forall j | 0 <= j < i
      ensures Recorded(errors, rules[j].0, FieldFailure(rules[j], formData))
    {
      assert rules[j].0 != rules[i].0;
      assert SameEntry(errors, before, rules[j].0);
    }
  }

  /**
   * isFormValid stopped at the k-th field: the fields before it passed and
   * have no error, its first failure is recorded, and the later fields'
   * entries are as they were.
   */
  predicate StoppedAt(rules: seq<(string, seq<ValidationRule>)>, formData: map<string, FormValue>,
                      before: map<string, string>, errors: map<string, string>, k: int)
    requires 0 <= k < |rules|
  {
    (forall j :: 0 <= j < k ==> FieldFailure(rules[j], formData).None? && rules[j].0 !in errors)
    && FieldFailure(rules[k], formData).Some?
    && Recorded(errors, rules[k].0, FieldFailure(rules[k], formData))
    && (forall j :: k < j < |rules| ==> SameEntry(errors, before, rules[j].0))
  }

  /**
   * Validating the i-th field touches no other field's entry: the earlier
   * fields stay without an error and the later ones keep their original
   * entries.
   */
  lemma StepFrames(rules: seq<(string, seq<ValidationRule>)>, orig: map<string, string>,
                   before: map<string, string>, errors: map<string, string>, i: nat)
    requires DistinctKeys(rules) && i < |rules|
    requires forall f :: f != rules[i].0 ==> SameEntry(errors, before, f)
    requires forall j :: 0 <= j < i ==> rules[j].0 !in before
    requires forall j :: i <= j < |rules| ==> SameEntry(before, orig, rules[j].0)
    ensures forall j :: 0 <= j < i ==> rules[j].0 !in errors
    ensures forall j :: i < j < |rules| ==> SameEntry(errors, orig, rules[j].0)
  {
    forall j | 0 <= j < |rules| && j != i
      ensures SameEntry(errors, before, rules[j].0)
    {
      assert rules[j].0 != rules[i].0;
    }
  }

  /** No ruled field has an error, and errors are only kept for ruled fields: there is none. */
  lemma NoErrorsLeft(rules: seq<(string, seq<ValidationRule>)>, errors: map<string, string>)
    requires errors.Keys <= Fields(rules)
    requires forall j :: 0 <= j < |rules| ==> rules[j].0 !in errors
    ensures errors == map[]
  {
    assert forall f :: f in Fields(rules) ==> f !in errors;
    assert errors.Keys == {};
  }

  class FormValidator {
    const rules: seq<(string, seq<ValidationRule>)>
    var errors: map<string, string>
    var touched: set<string>

    /** Errors are only ever recorded for fields that have rules. */
    ghost predicate Valid()
      reads this
    {
      DistinctKeys(rules) && errors.Keys <= Fields(rules)
    }

    constructor (fieldRules: seq<(string, seq<ValidationRule>)>)
      requires DistinctKeys(fieldRules)
      ensures Valid() && rules == fieldRules && errors == map[] && touched == {}
    {
      rules := fieldRules;
      errors := map[];
      touched := {};
    }

    /** `rules[field] || []`. */
    function RulesFor(field: string): (r: seq<ValidationRule>)
      reads this
      ensures !HasKey(rules, field) ==> r == []
      ensures HasKey(rules, field) ==> Lookup(rules, field) == Some(r)
    {
      Lookup(rules, field).GetOr([])
    }

    /**
     * validateField: run the field's rules in order; on the first failure
     * record its message and report false, otherwise delete the field's
     * error and report true.
     */
    method ValidateField(field: string, value: FormValue) returns (ok: bool)
      requires Valid()
      modifies this`errors
      ensures Valid()
      ensures ok <==> FirstFailure(RulesFor(field), value).None?
      ensures Recorded(errors, field, FirstFailure(RulesFor(field), value))
      ensures forall f :: f != field ==> SameEntry(errors, old(errors), f)
    {
      var fieldRules := Lookup(rules, field).GetOr([]);
      var i := 0;
      while i < |fieldRules|
        invariant 0 <= i <= |fieldRules|
        invariant forall j :: 0 <= j < i ==> RuleCheck(fieldRules[j], value).None?
      {
        var failure := RuleCheck(fieldRules[i], value);
        if failure.Some? {
          // A field without rules has an empty list, so a failing rule means the field is ruled.
          assert HasKey(rules, field);
          FirstFailureAt(fieldRules, value, i);
          errors := errors[field := failure.value];
          return false;
        }
        i := i + 1;
      }
      errors := errors - {field};
      return true;
    }

    /**
     * validateForm: mark every ruled field touched and validate each one,
     * without stopping at a failure; true iff every field passes. Each
     * ruled field's error is then exactly its first failure; other entries
     * are untouched.
     */
    method ValidateForm(formData: map<string, FormValue>) returns (isValid: bool)
      requires Valid()
      modifies this`errors, this`touched
      ensures Valid()
      ensures isValid <==> AllFieldsPass(rules, formData)
      ensures touched == old(touched) + Fields(rules)
      ensures forall i :: 0 <= i < |rules| ==> Recorded(errors, rules[i].0, FieldFailure(rules[i], formData))
      ensures forall f :: f !in Fields(rules) ==> SameEntry(errors, old(errors), f)
    {
      isValid := true;
      var i := 0;
      while i < |rules|
        invariant 0 <= i <= |rules|
        invariant Valid()
        invariant touched == old(touched) + Fields(rules[..i])
        invariant isValid <==> forall j :: 0 <= j < i ==> FieldFailure(rules[j], formData).None?
        invariant forall j :: 0 <= j < i ==> Recorded(errors, rules[j].0, FieldFailure(rules[j], formData))
        invariant forall f :: f !in Fields(rules) ==> SameEntry(errors, old(errors), f)
      {
        var field := rules[i].0;
        FieldsExtend(rules, i);
        touched := touched + {field};
        var before := errors;
        LookupDistinct(rules, i);
        var ok := ValidateField(field, ValueOf(formData, field));
        KeepRecorded(rules, formData, before, errors, i);
        if !ok {
          isValid := false;
        }
        i := i + 1;
      }
      assert rules[..i] == rules;
    }

    /** validateFieldOnBlur: mark the field touched, then validate it. */
    method ValidateFieldOnBlur(field: string, formData: map<string, FormValue>) returns (ok: bool)
      requires Valid()
      modifies this`errors, this`touched
      ensures Valid()
      ensures touched == old(touched) + {field}
      ensures ok <==> FirstFailure(RulesFor(field), ValueOf(formData, field)).None?
      ensures Recorded(errors, field, FirstFailure(RulesFor(field), ValueOf(formData, field)))
      ensures forall f :: f != field ==> SameEntry(errors, old(errors), f)
    {
      touched := touched + {field};
      ok := ValidateField(field, ValueOf(formData, field));
    }

    /** clearErrors: both dictionaries emptied. */
    method ClearErrors()
      requires Valid()
      modifies this`errors, this`touched
      ensures Valid()
      ensures errors == map[] && touched == {}
    {
      errors := map[];
      touched := {};
    }

    /** clearFieldError: only that field's error goes. */
    method ClearFieldError(field: string)
      requires Valid()
      modifies this`errors
      ensures Valid()
      ensures errors == old(errors) - {field}
    {
      errors := errors - {field};
    }

    /** getFieldError: undefined (None) until the field is touched. */
    function GetFieldError(field: string): (r: Option<string>)
      reads this
      ensures r.Some? <==> field in touched && field in errors
      ensures r.Some? ==> r.value == errors[field]
    {
      if field in touched && field in errors then Some(errors[field]) else None
    }

    /** hasFieldError: touched, with a non-empty message. */
    predicate HasFieldError(field: string)
      reads this
      ensures HasFieldError(field) <==> GetFieldError(field).Some? && GetFieldError(field).value != ""
    {
      field in touched && field in errors && errors[field] != ""
    }

    predicate HasErrors()
      reads this
    {
      |errors| > 0
    }

    /**
     * isFormValid: validate the ruled fields in order, stopping at the first
     * failure (the fields validated so far keep their updated errors); when
     * none fails, valid iff no error is left, which by the invariant is
     * always the case.
     */
    method IsFormValid(formData: map<string, FormValue>) returns (valid: bool)
      requires Valid()
      modifies this`errors
      ensures Valid()
      ensures valid <==> AllFieldsPass(rules, formData)
      ensures valid ==> errors == map[]
      ensures !valid ==> exists k :: 0 <= k < |rules| && StoppedAt(rules, formData, old(errors), errors, k)
    {
      var i := 0;
      while i < |rules|
        invariant 0 <= i <= |rules|
        invariant Valid()
        invariant forall j :: 0 <= j < i ==> FieldFailure(rules[j], formData).None?
        invariant forall j :: 0 <= j < i ==> rules[j].0 !in errors
        invariant forall j :: i <= j < |rules| ==> SameEntry(errors, old(errors), rules[j].0)
      {
        var field := rules[i].0;
        var before := errors;
        LookupDistinct(rules, i);
        var ok := ValidateField(field, ValueOf(formData, field));
        StepFrames(rules, old(errors), before, errors, i);
        if !ok {
          assert FieldFailure(rules[i], formData).Some?;
          assert StoppedAt(rules, formData, old(errors), errors, i);
          return false;
        }
        i := i + 1;
      }
      NoErrorsLeft(rules, errors);
      return |errors| == 0;
    }
  }
}
