/** pages/form/utils/formHelpers.ts: validation of submitted values, completion
    percentages, lookups, sort-and-renumber, cloning, cleaning, the API exchange
    format, the structural check of an imported configuration, the empty form and
    the form statistics. */
module FormHelpers {
  import opened Common
  import opened Strings
  import opened JsValues
  import opened OrderSort
  import Email
  import opened FormModel

  // ---------------------------------------------------------------------------
  // Field validation

  /** The JavaScript built-ins the validation calls and the model leaves open:
      `Number(s)` on a string (None is NaN), `Number(v)` on an array or an object,
      and `new RegExp(pattern).test(s)`. */
  datatype Coercions = Coercions(
    parseNumber: string -> Option<int>,
    compositeToNumber: Value -> Option<int>,
    patternTest: (string, string) -> bool)

  /** `Number(value)`, with None for NaN. */
  function ToNumber(v: Value, env: Coercions): Option<int> {
    match v
    case Undefined => None
    case Null => Some(0)
    case Bool(b) => Some(if b then 1 else 0)
    case Num(n) => Some(n)
    case Str(s) => env.parseNumber(s)
    case _ => env.compositeToNumber(v)
  }

  /** One failed rule of validateField; `Message` is the text pushed for it. */
  datatype FieldError =
    | RequiredMissing
    | TooShort(minLength: int)
    | TooLong(maxLength: int)
    | BadEmail
    | BadPattern
    | BelowMin(min: int)
    | AboveMax(max: int)
  {
    function Message(): string {
      match this
      case RequiredMissing => "Ce champ est obligatoire"
      case TooShort(n) => "Minimum " + IntToString(n) + " caractères requis"
      case TooLong(n) => "Maximum " + IntToString(n) + " caractères autorisés"
      case BadEmail => "Format email invalide"
      case BadPattern => "Format invalide"
      case BelowMin(n) => "Valeur minimum : " + IntToString(n)
      case AboveMax(n) => "Valeur maximum : " + IntToString(n)
    }
  }

  function Messages(errors: seq<FieldError>): (r: seq<string>)
    ensures |r| == |errors|
    decreases |errors|
  {
    if errors == [] then [] else Messages(errors[..|errors| - 1]) + [errors[|errors| - 1].Message()]
  }

  lemma MessagesSnoc(errors: seq<FieldError>, e: FieldError)
    ensures Messages(errors + [e]) == Messages(errors) + [e.Message()]
  {
    assert (errors + [e])[..|errors|] == errors;
  }

  /** `validation.required` is truthy. */
  predicate RequiresValue(rules: FieldValidation) {
    rules.required == Some(true)
  }

  /** The error `e` when `broken` holds, and nothing otherwise. */
  function ErrorIf(broken: bool, e: FieldError): seq<FieldError> {
    if broken then [e] else []
  }

  predicate TooShortBroken(rules: FieldValidation, s: string) {
    IsNonZero(rules.minLength) && |s| < rules.minLength.value
  }

  predicate TooLongBroken(rules: FieldValidation, s: string) {
    IsNonZero(rules.maxLength) && |s| > rules.maxLength.value
  }

  predicate EmailBroken(rules: FieldValidation, s: string) {
    rules.email == Some(true) && !Email.IsValidEmail(s)
  }

  predicate PatternBroken(rules: FieldValidation, s: string, env: Coercions) {
    rules.pattern.Some? && rules.pattern.value != "" && !env.patternTest(rules.pattern.value, s)
  }

  /** The rules that apply only to string values, in the order they are checked. */
  function StringErrors(rules: FieldValidation, s: string, env: Coercions): seq<FieldError> {
    ErrorIf(TooShortBroken(rules, s), TooShort(rules.minLength.GetOr(0)))
    + ErrorIf(TooLongBroken(rules, s), TooLong(rules.maxLength.GetOr(0)))
    + ErrorIf(EmailBroken(rules, s), BadEmail)
    + ErrorIf(PatternBroken(rules, s, env), BadPattern)
  }

  /** The bounds that apply to any value `Number()` turns into a number. */
  function NumberErrors(rules: FieldValidation, n: int): seq<FieldError> {
    ErrorIf(rules.min.Some? && n < rules.min.value, BelowMin(rules.min.GetOr(0)))
    + ErrorIf(rules.max.Some? && n > rules.max.value, AboveMax(rules.max.GetOr(0)))
  }

  /** The string rules, when the value is a string. */
  function StringPart(rules: FieldValidation, value: Value, env: Coercions): seq<FieldError> {
    if value.Str? then StringErrors(rules, value.s, env) else []
  }

  /** The bounds, when `Number(value)` is not NaN (a number value always passes). */
  function NumberPart(rules: FieldValidation, value: Value, env: Coercions): seq<FieldError> {
    var num := ToNumber(value, env);
    if num.Some? then NumberErrors(rules, num.value) else []
  }

  /** The failed rules of `field` for `value`, in the order validateField reports them:
      the required check, then (unless the value is falsy and not required) the string
      rules and the bounds. */
  function FieldErrors(field: Field, value: Value, env: Coercions): seq<FieldError> {
    if field.validation.None? then []
    else
      var rules := field.validation.value;
      if !Truthy(value) && !RequiresValue(rules) then []
      else
        ErrorIf(RequiresValue(rules) && !Truthy(value), RequiredMissing)
        + StringPart(rules, value, env) + NumberPart(rules, value, env)
  }

  lemma {:induction false} MessagesAppend(a: seq<FieldError>, b: seq<FieldError>)
    ensures Messages(a + b) == Messages(a) + Messages(b)
    decreases |b|
  {
    if b == [] {
      assert a + b == a;
    } else {
      var b', x := b[..|b| - 1], b[|b| - 1];
      assert b == b' + [x];
      assert a + b == (a + b') + [x];
      calc {
        Messages(a + b);
        { MessagesSnoc(a + b', x); }
        Messages(a + b') + [x.Message()];
        { MessagesAppend(a, b'); }
        Messages(a) + Messages(b') + [x.Message()];
        { MessagesSnoc(b', x); }
        Messages(a) + Messages(b);
      }
    }
  }

  /** Appends the message of `e` when `broken` holds (one `if (...) errors.push(...)`). */
  method PushIf(errors: seq<string>, ghost codes: seq<FieldError>, broken: bool, e: FieldError)
    returns (errors': seq<string>, ghost codes': seq<FieldError>)
    requires errors == Messages(codes)
    ensures codes' == codes + ErrorIf(broken, e) && errors' == Messages(codes')
  {
    if broken {
      MessagesSnoc(codes, e);
      errors', codes' := errors + [e.Message()], codes + [e];
    } else {
      assert codes + [] == codes;
      errors', codes' := errors, codes;
    }
  }

  /** The string rules of validateField. */
  method CheckStringRules(rules: FieldValidation, s: string, env: Coercions) returns (errors: seq<string>)
    ensures errors == Messages(StringErrors(rules, s, env))
  {
    ghost var codes: seq<FieldError>;
    errors, codes := [], [];
    errors, codes := PushIf(errors, codes, TooShortBroken(rules, s), TooShort(rules.minLength.GetOr(0)));
    errors, codes := PushIf(errors, codes, TooLongBroken(rules, s), TooLong(rules.maxLength.GetOr(0)));
    errors, codes := PushIf(errors, codes, EmailBroken(rules, s), BadEmail);
    errors, codes := PushIf(errors, codes, PatternBroken(rules, s, env), BadPattern);
  }

  /** The numeric bounds of validateField. */
  method CheckNumberRules(rules: FieldValidation, n: int) returns (errors: seq<string>)
    ensures errors == Messages(NumberErrors(rules, n))
  {
    ghost var codes: seq<FieldError>;
    errors, codes := [], [];
    errors, codes := PushIf(errors, codes, rules.min.Some? && n < rules.min.value, BelowMin(rules.min.GetOr(0)));
    errors, codes := PushIf(errors, codes, rules.max.Some? && n > rules.max.value, AboveMax(rules.max.GetOr(0)));
  }

  /** validateField: the messages of the failed rules, in order. */
  method ValidateField(field: Field, value: Value, env: Coercions) returns (errors: seq<string>)
    ensures errors == Messages(FieldErrors(field, value, env))
  {
    errors := [];
    if field.validation.None? {
      return;
    }
    var rules := field.validation.value;
    ghost var codes: seq<FieldError> := [];
    errors, codes := PushIf(errors, codes, RequiresValue(rules) && !Truthy(value), RequiredMissing);
    if !Truthy(value) && !RequiresValue(rules) {
      return;
    }
    if value.Str? {
      var more := CheckStringRules(rules, value.s, env);
      MessagesAppend(codes, StringErrors(rules, value.s, env));
      errors, codes := errors + more, codes + StringErrors(rules, value.s, env);
    } else {
      assert codes + [] == codes;
    }
    assert codes == ErrorIf(RequiresValue(rules) && !Truthy(value), RequiredMissing) + StringPart(rules, value, env);
    var num := ToNumber(value, env);
    if num.Some? {
      var more := CheckNumberRules(rules, num.value);
      MessagesAppend(codes, NumberErrors(rules, num.value));
      errors, codes := errors + more, codes + NumberErrors(rules, num.value);
    } else {
      assert codes + [] == codes;
    }
    assert codes == FieldErrors(field, value, env);
  }

  /** Without rules nothing is reported; a required field with a falsy value reports
      the required error first; an optional field with a falsy value reports nothing. */
  lemma FieldErrorsDefaults(field: Field, value: Value, env: Coercions)
    ensures field.validation.None? ==> FieldErrors(field, value, env) == []
    ensures field.validation.Some? && RequiresValue(field.validation.value) && !Truthy(value) ==>
              |FieldErrors(field, value, env)| > 0 && FieldErrors(field, value, env)[0] == RequiredMissing
    ensures field.validation.Some? && !RequiresValue(field.validation.value) && !Truthy(value) ==>
              FieldErrors(field, value, env) == []
  {
  }

  /** The rules after the required check run when the value is truthy or required. */
  predicate RulesApply(field: Field, value: Value) {
    field.validation.Some? && (Truthy(value) || RequiresValue(field.validation.value))
  }

  /** Where an error can come from: the required check, a string rule, or a bound. */
  lemma FieldErrorsMembership(field: Field, value: Value, env: Coercions, e: FieldError)
    ensures e in FieldErrors(field, value, env) <==>
              RulesApply(field, value) &&
              ((e == RequiredMissing && !Truthy(value))
               || e in StringPart(field.validation.value, value, env)
               || e in NumberPart(field.validation.value, value, env))
  {
  }

  /** The errors the string rules can report, each exactly when its rule is broken. */
  lemma StringPartMembership(rules: FieldValidation, value: Value, env: Coercions, e: FieldError)
    ensures e in StringPart(rules, value, env) <==>
              value.Str?
              && ((TooShortBroken(rules, value.s) && e == TooShort(rules.minLength.value))
                  || (TooLongBroken(rules, value.s) && e == TooLong(rules.maxLength.value))
                  || (EmailBroken(rules, value.s) && e == BadEmail)
                  || (PatternBroken(rules, value.s, env) && e == BadPattern))
  {
    if value.Str? {
      var s := value.s;
      assert StringPart(rules, value, env) == StringErrors(rules, s, env);
      var a, b := ErrorIf(TooShortBroken(rules, s), TooShort(rules.minLength.GetOr(0))),
                  ErrorIf(TooLongBroken(rules, s), TooLong(rules.maxLength.GetOr(0)));
      var c, d := ErrorIf(EmailBroken(rules, s), BadEmail), ErrorIf(PatternBroken(rules, s, env), BadPattern);
      assert StringErrors(rules, s, env) == a + b + c + d;
      assert e in a + b + c + d <==> e in a || e in b || e in c || e in d;
    }
  }

  /** The errors the bounds can report, each exactly when its bound is crossed. */
  lemma NumberPartMembership(rules: FieldValidation, value: Value, env: Coercions, e: FieldError)
    ensures e in NumberPart(rules, value, env) <==>
              ToNumber(value, env).Some?
              && ((rules.min.Some? && ToNumber(value, env).value < rules.min.value && e == BelowMin(rules.min.value))
                  || (rules.max.Some? && ToNumber(value, env).value > rules.max.value && e == AboveMax(rules.max.value)))
  {
    var num := ToNumber(value, env);
    if num.Some? {
      var a := ErrorIf(rules.min.Some? && num.value < rules.min.value, BelowMin(rules.min.GetOr(0)));
      var b := ErrorIf(rules.max.Some? && num.value > rules.max.value, AboveMax(rules.max.GetOr(0)));
      assert NumberPart(rules, value, env) == a + b;
      assert e in a + b <==> e in a || e in b;
    }
  }

  /** The minimum-length error is reported exactly when the rule is set (non-zero) and
      the string is shorter. */
  lemma TooShortReportedIff(field: Field, value: Value, env: Coercions, n: int)
    ensures TooShort(n) in FieldErrors(field, value, env) <==>
              RulesApply(field, value) && value.Str? && IsNonZero(field.validation.value.minLength)
              && n == field.validation.value.minLength.value && |value.s| < n
  {
    FieldErrorsMembership(field, value, env, TooShort(n));
    if field.validation.Some? {
      StringPartMembership(field.validation.value, value, env, TooShort(n));
      NumberPartMembership(field.validation.value, value, env, TooShort(n));
    }
  }

  /** The maximum-length error is reported exactly when the rule is set (non-zero) and
      the string is longer. */
  lemma TooLongReportedIff(field: Field, value: Value, env: Coercions, n: int)
    ensures TooLong(n) in FieldErrors(field, value, env) <==>
              RulesApply(field, value) && value.Str? && IsNonZero(field.validation.value.maxLength)
              && n == field.validation.value.maxLength.value && |value.s| > n
  {
    FieldErrorsMembership(field, value, env, TooLong(n));
    if field.validation.Some? {
      StringPartMembership(field.validation.value, value, env, TooLong(n));
      NumberPartMembership(field.validation.value, value, env, TooLong(n));
    }
  }

  /** The e-mail error is reported exactly when the rule is on and the string is not in
      the language of `^[^\s@]+@[^\s@]+\.[^\s@]+$`. */
  lemma BadEmailReportedIff(field: Field, value: Value, env: Coercions)
    ensures BadEmail in FieldErrors(field, value, env) <==>
              RulesApply(field, value) && value.Str? && field.validation.value.email == Some(true)
              && !Email.MatchesEmailPattern(value.s)
  {
    FieldErrorsMembership(field, value, env, BadEmail);
    if field.validation.Some? {
      StringPartMembership(field.validation.value, value, env, BadEmail);
      NumberPartMembership(field.validation.value, value, env, BadEmail);
    }
    if value.Str? {
      Email.IsValidEmailMatchesPattern(value.s);
    }
  }

  /** The pattern error is reported exactly when a non-empty pattern does not match. */
  lemma BadPatternReportedIff(field: Field, value: Value, env: Coercions)
    ensures BadPattern in FieldErrors(field, value, env) <==>
              RulesApply(field, value) && value.Str? && field.validation.value.pattern.Some?
              && field.validation.value.pattern.value != ""
              && !env.patternTest(field.validation.value.pattern.value, value.s)
  {
    FieldErrorsMembership(field, value, env, BadPattern);
    if field.validation.Some? {
      StringPartMembership(field.validation.value, value, env, BadPattern);
      NumberPartMembership(field.validation.value, value, env, BadPattern);
    }
  }

  /** The minimum error is reported exactly when the value coerces to a number below
      the set minimum. */
  lemma BelowMinReportedIff(field: Field, value: Value, env: Coercions, n: int)
    ensures BelowMin(n) in FieldErrors(field, value, env) <==>
              RulesApply(field, value) && ToNumber(value, env).Some? && field.validation.value.min == Some(n)
              && ToNumber(value, env).value < n
  {
    FieldErrorsMembership(field, value, env, BelowMin(n));
    if field.validation.Some? {
      StringPartMembership(field.validation.value, value, env, BelowMin(n));
      NumberPartMembership(field.validation.value, value, env, BelowMin(n));
    }
  }

  /** The maximum error is reported exactly when the value coerces to a number above
      the set maximum. */
  lemma AboveMaxReportedIff(field: Field, value: Value, env: Coercions, n: int)
    ensures AboveMax(n) in FieldErrors(field, value, env) <==>
              RulesApply(field, value) && ToNumber(value, env).Some? && field.validation.value.max == Some(n)
              && ToNumber(value, env).value > n
  {
    FieldErrorsMembership(field, value, env, AboveMax(n));
    if field.validation.Some? {
      StringPartMembership(field.validation.value, value, env, AboveMax(n));
      NumberPartMembership(field.validation.value, value, env, AboveMax(n));
    }
  }

  /** Errors accumulate: a required field with minimum 1 that receives "" (which
      `Number` turns into 0) gets both the required and the minimum error. */
  lemma RequiredAndMinimumAccumulate(field: Field, env: Coercions)
    requires field.validation == Some(NoRules.(required := Some(true), min := Some(1)))
    requires env.parseNumber("") == Some(0)
    ensures FieldErrors(field, Str(""), env) == [RequiredMissing, BelowMin(1)]
    ensures ValidateFieldMessages(field, Str(""), env)
              == ["Ce champ est obligatoire", "Valeur minimum : 1"]
  {
    var rules := field.validation.value;
    assert StringErrors(rules, "", env) == [];
    assert NumberErrors(rules, 0) == [BelowMin(1)];
    assert FieldErrors(field, Str(""), env) == [RequiredMissing] + [] + [BelowMin(1)];
    assert IntToString(1) == "1";
    var m := Messages([RequiredMissing, BelowMin(1)]);
    assert m[0] == "Ce champ est obligatoire";
    assert m[1] == "Valeur minimum : 1";
  }

  /** The messages validateField returns. */
  function ValidateFieldMessages(field: Field, value: Value, env: Coercions): seq<string> {
    Messages(FieldErrors(field, value, env))
  }

  // ---------------------------------------------------------------------------
  // Form validation

  /** The error map built from `fields` in order by `errorsOf`: a field with errors
      sets its id, so a later field with the same id replaces an earlier entry. */
  function ErrorMap(fields: seq<Field>, errorsOf: Field -> seq<string>): map<string, seq<string>>
    decreases |fields|
  {
    if fields == [] then map[]
    else
      var f := fields[|fields| - 1];
      var acc := ErrorMap(fields[..|fields| - 1], errorsOf);
      if |errorsOf(f)| > 0 then acc[f.id := errorsOf(f)] else acc
  }

  lemma ErrorMapSnoc(fields: seq<Field>, f: Field, errorsOf: Field -> seq<string>)
    ensures ErrorMap(fields + [f], errorsOf)
            == if |errorsOf(f)| > 0 then ErrorMap(fields, errorsOf)[f.id := errorsOf(f)] else ErrorMap(fields, errorsOf)
  {
    assert (fields + [f])[..|fields|] == fields;
  }

  /** An id is a key of the map exactly when some field with that id has errors. */
  lemma {:induction false} ErrorMapKeys(fields: seq<Field>, errorsOf: Field -> seq<string>, id: string)
    ensures id in ErrorMap(fields, errorsOf) <==>
              exists i :: 0 <= i < |fields| && fields[i].id == id && |errorsOf(fields[i])| > 0
    decreases |fields|
  {
    if fields != [] {
      var init := fields[..|fields| - 1];
      ErrorMapKeys(init, errorsOf, id);
      if exists i :: 0 <= i < |fields| && fields[i].id == id && |errorsOf(fields[i])| > 0 {
        var i :| 0 <= i < |fields| && fields[i].id == id && |errorsOf(fields[i])| > 0;
        if i < |init| { assert init[i] == fields[i]; }
      }
    }
  }

  /** The entry of an id holds the errors of the last field with that id and errors. */
  lemma {:induction false} ErrorMapLastWins(fields: seq<Field>, errorsOf: Field -> seq<string>, i: nat)
    requires i < |fields| && |errorsOf(fields[i])| > 0
    requires forall j :: i < j < |fields| && fields[j].id == fields[i].id ==> |errorsOf(fields[j])| == 0
    ensures fields[i].id in ErrorMap(fields, errorsOf)
    ensures ErrorMap(fields, errorsOf)[fields[i].id] == errorsOf(fields[i])
    decreases |fields|
  {
    var init, last := fields[..|fields| - 1], fields[|fields| - 1];
    if i < |init| {
      assert init[i] == fields[i];
      forall j | i < j < |init| && init[j].id == init[i].id ensures |errorsOf(init[j])| == 0 {
        assert init[j] == fields[j];
      }
      ErrorMapLastWins(init, errorsOf, i);
    }
  }

  /** The messages of a field, for the value submitted under its id. */
  function FieldMessages(data: map<string, Value>, env: Coercions): Field -> seq<string> {
    (f: Field) => ValidateFieldMessages(f, Lookup(data, f.id), env)
  }

  /** The map validateForm returns for the fields of a form. */
  function FormErrors(fields: seq<Field>, data: map<string, Value>, env: Coercions): map<string, seq<string>> {
    ErrorMap(fields, FieldMessages(data, env))
  }

  /** For validateForm: a field id is a key exactly when a field with that id has
      errors, and then it maps to the messages of the last such field. */
  lemma FormErrorsSpec(fields: seq<Field>, data: map<string, Value>, env: Coercions, id: string)
    ensures id in FormErrors(fields, data, env) <==>
              exists i :: 0 <= i < |fields| && fields[i].id == id && |FieldErrors(fields[i], Lookup(data, id), env)| > 0
    ensures forall i :: 0 <= i < |fields| && fields[i].id == id && |FieldErrors(fields[i], Lookup(data, id), env)| > 0
              && (forall j :: i < j < |fields| && fields[j].id == id ==> |FieldErrors(fields[j], Lookup(data, id), env)| == 0)
              ==> FormErrors(fields, data, env)[id] == ValidateFieldMessages(fields[i], Lookup(data, id), env)
  {
    var errorsOf := FieldMessages(data, env);
    ErrorMapKeys(fields, errorsOf, id);
    assert forall i :: 0 <= i < |fields| && fields[i].id == id ==>
      |errorsOf(fields[i])| == |FieldErrors(fields[i], Lookup(data, id), env)|;
    forall i | 0 <= i < |fields| && fields[i].id == id && |FieldErrors(fields[i], Lookup(data, id), env)| > 0
      && (forall j :: i < j < |fields| && fields[j].id == id ==> |FieldErrors(fields[j], Lookup(data, id), env)| == 0)
      ensures FormErrors(fields, data, env)[id] == ValidateFieldMessages(fields[i], Lookup(data, id), env)
    {
      ErrorMapLastWins(fields, errorsOf, i);
    }
  }

  /** validateForm: every field of every step, in order, with no visibility filter. */
  method ValidateForm(config: FormConfig, data: map<string, Value>, env: Coercions)
    returns (errors: map<string, seq<string>>)
    ensures errors == FormErrors(AllFields(config.steps), data, env)
  {
    errors := map[];
    var steps := config.steps;
    for i := 0 to |steps|
      invariant errors == FormErrors(AllFields(steps[..i]), data, env)
    {
      errors := ValidateStepFields(errors, AllFields(steps[..i]), steps[i].fields, data, env);
      assert steps[..i + 1] == steps[..i] + [steps[i]];
      AllFieldsAppend(steps[..i], steps[i]);
    }
    assert steps[..|steps|] == steps;
  }

  /** The inner `step.fields.forEach` of validateForm, continuing the map built from the
      fields `done` of the earlier steps. */
  method ValidateStepFields(errors0: map<string, seq<string>>, ghost done: seq<Field>, fields: seq<Field>,
                            data: map<string, Value>, env: Coercions)
    returns (errors: map<string, seq<string>>)
    requires errors0 == FormErrors(done, data, env)
    ensures errors == FormErrors(done + fields, data, env)
  {
    errors := errors0;
    ghost var errorsOf := FieldMessages(data, env);
    assert done + fields[..0] == done;
    for j := 0 to |fields|
      invariant errors == ErrorMap(done + fields[..j], errorsOf)
    {
      var field := fields[j];
      var fieldErrors := ValidateField(field, Lookup(data, field.id), env);
      assert fieldErrors == errorsOf(field) by {
        assert errorsOf(field) == ValidateFieldMessages(field, Lookup(data, field.id), env);
      }
      ghost var prev := done + fields[..j];
      assert done + fields[..j + 1] == prev + [field];
      ErrorMapSnoc(prev, field, errorsOf);
      if |fieldErrors| > 0 {
        errors := errors[field.id := fieldErrors];
      }
    }
    assert fields[..|fields|] == fields;
  }

  // ---------------------------------------------------------------------------
  // Completion

  predicate IsRequiredField(f: Field) {
    f.validation.Some? && RequiresValue(f.validation.value)
  }

  /** A value counts as filled in unless it is undefined, null or ''. */
  predicate IsFilled(v: Value) {
    !(v.Undefined? || v.Null? || v == Str(""))
  }

  function RequiredOf(fields: seq<Field>): seq<Field> {
    Filter(fields, IsRequiredField)
  }

  function FilledOf(fields: seq<Field>, data: map<string, Value>): seq<Field> {
    Filter(fields, (f: Field) => IsFilled(Lookup(data, f.id)))
  }

  /** The completion percentage of `fields`: 100 with no required field, otherwise the
      share of filled required fields, rounded to the nearest integer. */
  function Completion(fields: seq<Field>, data: map<string, Value>): (r: nat)
    ensures r <= 100
    ensures |RequiredOf(fields)| == 0 ==> r == 100
    ensures var req, done := |RequiredOf(fields)|, |FilledOf(RequiredOf(fields), data)|;
            req > 0 ==> 2 * req * r <= 200 * done + req < 2 * req * (r + 1)
    ensures var req, done := |RequiredOf(fields)|, |FilledOf(RequiredOf(fields), data)|;
            req > 0 && done == 0 ==> r == 0
  {
    var req := RequiredOf(fields);
    var done := FilledOf(req, data);
    if |req| == 0 then 100
    else
      RoundedPercentBounds(|done|, |req|);
      RoundDiv(100 * |done|, |req|)
  }

  /** Filling every required field gives 100. */
  lemma AllFilledIsComplete(fields: seq<Field>, data: map<string, Value>)
    requires forall i :: 0 <= i < |fields| && IsRequiredField(fields[i]) ==> IsFilled(Lookup(data, fields[i].id))
    ensures Completion(fields, data) == 100
  {
    var req := RequiredOf(fields);
    forall i | 0 <= i < |req| ensures IsFilled(Lookup(data, req[i].id)) {
      assert req[i] in req;
    }
    FilterAllPass(req, (f: Field) => IsFilled(Lookup(data, f.id)));
    if |req| > 0 {
      RoundedPercentBounds(|req|, |req|);
    }
  }

  /** calculateStepCompletion. */
  function StepCompletion(step: Step, data: map<string, Value>): nat {
    Completion(step.fields, data)
  }

  /** calculateFormCompletion: the same measure over the fields of all steps. */
  function FormCompletion(config: FormConfig, data: map<string, Value>): nat {
    Completion(AllFields(config.steps), data)
  }

  /** A one-step form is exactly as complete as its step. */
  lemma OneStepFormCompletion(config: FormConfig, data: map<string, Value>)
    requires |config.steps| == 1
    ensures FormCompletion(config, data) == StepCompletion(config.steps[0], data)
  {
    AllFieldsAppend([], config.steps[0]);
    assert config.steps == [] + [config.steps[0]];
    assert AllFields(config.steps) == config.steps[0].fields;
  }

  /** The completion of a form with several steps counts their required fields together. */
  lemma FormCompletionCountsAllSteps(config: FormConfig, data: map<string, Value>, s: Step)
    ensures |RequiredOf(AllFields(config.steps + [s]))| == |RequiredOf(AllFields(config.steps))| + |RequiredOf(s.fields)|
  {
    AllFieldsAppend(config.steps, s);
    FilterAppend(AllFields(config.steps), s.fields, IsRequiredField);
  }

  // ---------------------------------------------------------------------------
  // Lookups

  function IdIs(id: string): Field -> bool {
    (f: Field) => f.id == id
  }

  /** The first field with `id` scanning steps in order. */
  function FieldInSteps(steps: seq<Step>, id: string): Option<Field> {
    Find(AllFields(steps), IdIs(id))
  }

  lemma {:induction false} AllFieldsConcat(a: seq<Step>, b: seq<Step>)
    ensures AllFields(a + b) == AllFields(a) + AllFields(b)
    decreases |b|
  {
    if b != [] {
      var b', last := b[..|b| - 1], b[|b| - 1];
      assert a + b == (a + b') + [last];
      assert b == b' + [last];
      calc {
        AllFields(a + b);
        AllFields((a + b') + [last]);
        { AllFieldsAppend(a + b', last); }
        AllFields(a + b') + last.fields;
        { AllFieldsConcat(a, b'); }
        (AllFields(a) + AllFields(b')) + last.fields;
        AllFields(a) + (AllFields(b') + last.fields);
        { AllFieldsAppend(b', last); }
        AllFields(a) + AllFields(b);
      }
    } else {
      assert a + b == a;
    }
  }

  /** findFieldById in formHelpers.ts (and in the builder): a loop over the steps that
      returns the first field with that id found by `find` in a step, or null. */
  method FindFieldById(steps: seq<Step>, id: string) returns (r: Option<Field>)
    ensures r == FieldInSteps(steps, id)
    ensures r.Some? ==> r.value.id == id
    ensures r.None? <==> forall i, j :: 0 <= i < |steps| && 0 <= j < |steps[i].fields| ==> steps[i].fields[j].id != id
  {
    for i := 0 to |steps|
      invariant Find(AllFields(steps[..i]), IdIs(id)).None?
    {
      var found := Find(steps[i].fields, IdIs(id));
      SearchStep(steps, i, id);
      if found.Some? {
        r := found;
        FieldInStepsNone(steps, id);
        return;
      }
    }
    assert steps[..|steps|] == steps;
    r := None;
    FieldInStepsNone(steps, id);
  }

  /** One round of the search: when the steps before `i` hold no such field, the
      search over the steps up to `i` is that of step `i`, and so is the whole search
      when step `i` holds one. */
  lemma SearchStep(steps: seq<Step>, i: nat, id: string)
    requires i < |steps| && Find(AllFields(steps[..i]), IdIs(id)).None?
    ensures Find(AllFields(steps[..i + 1]), IdIs(id)) == Find(steps[i].fields, IdIs(id))
    ensures Find(steps[i].fields, IdIs(id)).Some? ==> FieldInSteps(steps, id) == Find(steps[i].fields, IdIs(id))
  {
    assert steps[..i + 1] == steps[..i] + [steps[i]];
    AllFieldsAppend(steps[..i], steps[i]);
    FindAppend(AllFields(steps[..i]), steps[i].fields, IdIs(id));
    if Find(steps[i].fields, IdIs(id)).Some? {
      assert steps == steps[..i + 1] + steps[i + 1..];
      AllFieldsConcat(steps[..i + 1], steps[i + 1..]);
      FindAppend(AllFields(steps[..i + 1]), AllFields(steps[i + 1..]), IdIs(id));
    }
  }

  /** The search fails exactly when no step holds a field with that id. */
  lemma {:induction false} FieldInStepsNone(steps: seq<Step>, id: string)
    ensures FieldInSteps(steps, id).None? <==>
              forall i, j :: 0 <= i < |steps| && 0 <= j < |steps[i].fields| ==> steps[i].fields[j].id != id
    decreases |steps|
  {
    if steps != [] {
      var init, last := steps[..|steps| - 1], steps[|steps| - 1];
      FieldInStepsNone(init, id);
      FindAppend(AllFields(init), last.fields, IdIs(id));
      if FieldInSteps(steps, id).None? {
        forall i, j | 0 <= i < |steps| && 0 <= j < |steps[i].fields| ensures steps[i].fields[j].id != id {
          if i < |init| {
            assert init[i] == steps[i];
          } else {
            assert !IdIs(id)(last.fields[j]);
          }
        }
      } else {
        if Find(AllFields(init), IdIs(id)).Some? {
          var i, j :| 0 <= i < |init| && 0 <= j < |init[i].fields| && init[i].fields[j].id == id;
          assert steps[i] == init[i];
        } else {
          var j :| 0 <= j < |last.fields| && IdIs(id)(last.fields[j]);
          assert steps[|steps| - 1].fields[j].id == id;
        }
      }
    }
  }

  /** findStepById: `find(...) || null`. */
  function FindStepById(config: FormConfig, id: string): (r: Option<Step>)
    ensures r.Some? ==> r.value.id == id && r.value in config.steps
    ensures r.None? <==> forall i :: 0 <= i < |config.steps| ==> config.steps[i].id != id
  {
    Find(config.steps, (s: Step) => s.id == id)
  }

  // ---------------------------------------------------------------------------
  // Sort and renumber

  function RenumberFields(fields: seq<Field>): (r: seq<Field>)
    ensures |r| == |fields| && OrdersContiguous(r)
  {
    seq(|fields|, i requires 0 <= i < |fields| => fields[i].(order := i))
  }

  function RenumberSteps(steps: seq<Step>): (r: seq<Step>)
    ensures |r| == |steps| && forall i :: 0 <= i < |r| ==> r[i].order == i
  {
    seq(|steps|, i requires 0 <= i < |steps| => steps[i].(order := i))
  }

  /** reorderStepFields: a stable sort by `order`, then `order := index`. */
  function ReorderStepFields(step: Step): Step {
    step.(fields := RenumberFields(SortBy(step.fields, FieldKey)))
  }

  /** reorderFormSteps: the same on the steps of a form. */
  function ReorderFormSteps(config: FormConfig): FormConfig {
    config.(steps := RenumberSteps(SortBy(config.steps, StepKey)))
  }

  function EraseFieldOrder(f: Field): Field { f.(order := 0) }
  function EraseStepOrder(s: Step): Step { s.(order := 0) }

  /** The reordered fields are the same fields up to `order`, ordered by their former
      `order` with ties in their former relative order, and numbered 0..n-1; nothing
      else of the step changes. */
  lemma ReorderStepFieldsSpec(step: Step)
    ensures var r := ReorderStepFields(step);
            r.(fields := step.fields) == step
            && |r.fields| == |step.fields| && OrdersContiguous(r.fields)
            && multiset(MapSeq(r.fields, EraseFieldOrder)) == multiset(MapSeq(step.fields, EraseFieldOrder))
    ensures var t := SortBy(step.fields, FieldKey);
            SortedBy(t, FieldKey)
            && (forall k :: WithKey(t, FieldKey, k) == WithKey(step.fields, FieldKey, k))
            && forall i :: 0 <= i < |t| ==> ReorderStepFields(step).fields[i] == t[i].(order := i)
  {
    var t := SortBy(step.fields, FieldKey);
    SortByIsStableSort(step.fields, FieldKey);
    SortByMapPermutes(step.fields, FieldKey, EraseFieldOrder);
    assert MapSeq(RenumberFields(t), EraseFieldOrder) == MapSeq(t, EraseFieldOrder);
  }

  /** Reordering an already reordered step changes nothing. */
  lemma ReorderStepFieldsIdempotent(step: Step)
    ensures ReorderStepFields(ReorderStepFields(step)) == ReorderStepFields(step)
  {
    var fs := ReorderStepFields(step).fields;
    assert SortedBy(fs, FieldKey);
    SortBySortedIsIdentity(fs, FieldKey);
    assert RenumberFields(fs) == fs;
  }

  /** The same three facts for the steps of a form. */
  lemma ReorderFormStepsSpec(config: FormConfig)
    ensures var r := ReorderFormSteps(config);
            r.(steps := config.steps) == config
            && |r.steps| == |config.steps| && (forall i :: 0 <= i < |r.steps| ==> r.steps[i].order == i)
            && multiset(MapSeq(r.steps, EraseStepOrder)) == multiset(MapSeq(config.steps, EraseStepOrder))
    ensures var t := SortBy(config.steps, StepKey);
            SortedBy(t, StepKey)
            && (forall k :: WithKey(t, StepKey, k) == WithKey(config.steps, StepKey, k))
            && forall i :: 0 <= i < |t| ==> ReorderFormSteps(config).steps[i] == t[i].(order := i)
  {
    var t := SortBy(config.steps, StepKey);
    SortByIsStableSort(config.steps, StepKey);
    SortByMapPermutes(config.steps, StepKey, EraseStepOrder);
    assert MapSeq(RenumberSteps(t), EraseStepOrder) == MapSeq(t, EraseStepOrder);
  }

  lemma ReorderFormStepsIdempotent(config: FormConfig)
    ensures ReorderFormSteps(ReorderFormSteps(config)) == ReorderFormSteps(config)
  {
    var ss := ReorderFormSteps(config).steps;
    assert SortedBy(ss, StepKey);
    SortBySortedIsIdentity(ss, StepKey);
    assert RenumberSteps(ss) == ss;
  }

  // ---------------------------------------------------------------------------
  // Cloning

  /** cloneField (and the copy made by the builder's duplicateField): a new id, the
      label suffixed with " (copie)", the next order, and every other attribute kept. */
  function CloneField(f: Field, newId: string): (r: Field)
    ensures r.id == newId && r.labelText == f.labelText + " (copie)" && r.order == f.order + 1
    ensures r.(id := f.id, labelText := f.labelText, order := f.order) == f
  {
    f.(id := newId, labelText := f.labelText + " (copie)", order := f.order + 1)
  }

  /** cloneStep: a new id, the title suffixed with " (copie)", the next order, and
      copies of the fields with new ids whose `stepId` is the ORIGINAL step's id. */
  function CloneStep(step: Step, newId: string, fieldIds: nat -> string): (r: Step)
    ensures r.id == newId && r.title == step.title + " (copie)" && r.order == step.order + 1
    ensures r.(id := step.id, title := step.title, order := step.order, fields := step.fields) == step
    ensures |r.fields| == |step.fields|
    ensures forall j :: 0 <= j < |r.fields| ==>
              r.fields[j].id == fieldIds(j) && r.fields[j].stepId == Some(step.id)
              && r.fields[j].(id := step.fields[j].id, stepId := step.fields[j].stepId) == step.fields[j]
  {
    step.(id := newId, title := step.title + " (copie)", order := step.order + 1,
          fields := seq(|step.fields|, j requires 0 <= j < |step.fields| =>
                          step.fields[j].(id := fieldIds(j), stepId := Some(step.id))))
  }

  /** Consequently the copied fields do not point at the clone they belong to. */
  lemma CloneStepFieldsPointToOriginal(step: Step, newId: string, fieldIds: nat -> string)
    requires newId != step.id
    ensures var r := CloneStep(step, newId, fieldIds);
            forall j :: 0 <= j < |r.fields| ==> r.fields[j].stepId != Some(r.id)
  {
  }

  // ---------------------------------------------------------------------------
  // Cleaning

  /** The cleaned field of cleanFormConfig: the identifying attributes, the width
      (defaulting to full), and only those optional attributes that carry a value
      (a non-empty placeholder or help text, a non-empty option list, `required`
      only when true). */
  function CleanField(f: Field): Field {
    BareField(f.id, f.ftype, f.labelText, f.order).(
      name := f.name,
      stepId := f.stepId,
      width := Some(f.width.GetOr(Full)),
      placeholder := if OrElse(f.placeholder, "") != "" then f.placeholder else None,
      helpText := if OrElse(f.helpText, "") != "" then f.helpText else None,
      defaultValue := f.defaultValue,
      validation := f.validation,
      options := if f.options.Some? && |f.options.value| > 0 then f.options else None,
      apiConfig := f.apiConfig,
      required := if f.required == Some(true) then f.required else None)
  }

  function CleanStep(step: Step): Step {
    step.(fields := MapSeq(step.fields, CleanField))
  }

  /** cleanFormConfig. */
  function CleanFormConfig(config: FormConfig): FormConfig {
    config.(steps := MapSeq(config.steps, CleanStep))
  }

  /** What cleaning keeps and drops: identity, type, label, step and order are kept;
      the width is defaulted; presentation and behaviour flags are dropped; the
      optional values are kept exactly when they are meaningful. */
  lemma CleanFieldSpec(f: Field)
    ensures var r := CleanField(f);
            r.id == f.id && r.name == f.name && r.ftype == f.ftype && r.labelText == f.labelText
            && r.stepId == f.stepId && r.order == f.order && r.defaultValue == f.defaultValue
            && r.validation == f.validation && r.apiConfig == f.apiConfig
            && r.width == Some(f.width.GetOr(Full))
            && (r.placeholder.Some? <==> f.placeholder.Some? && f.placeholder.value != "")
            && (r.placeholder.Some? ==> r.placeholder == f.placeholder)
            && (r.helpText.Some? <==> f.helpText.Some? && f.helpText.value != "")
            && (r.helpText.Some? ==> r.helpText == f.helpText)
            && (r.options.Some? <==> f.options.Some? && |f.options.value| > 0)
            && (r.options.Some? ==> r.options == f.options)
            && (r.required.Some? <==> f.required == Some(true))
            && r.disabled.None? && r.readonly.None? && r.cssClass.None? && r.icon.None?
            && r.prefix.None? && r.suffix.None? && r.conditionalLogic.None? && r.hasApi.None?
            && r.min.None? && r.max.None? && r.accept.None? && r.step.None? && r.multiple.None?
            && r.rows.None? && r.position.None?
  {
  }

  /** Cleaning a cleaned configuration changes nothing. */
  lemma CleanFormConfigIdempotent(config: FormConfig)
    ensures CleanFormConfig(CleanFormConfig(config)) == CleanFormConfig(config)
  {
    var once := CleanFormConfig(config);
    forall i | 0 <= i < |once.steps|
      ensures CleanStep(once.steps[i]) == once.steps[i]
    {
      var st := once.steps[i];
      assert MapSeq(st.fields, CleanField) == st.fields;
    }
    assert MapSeq(once.steps, CleanStep) == once.steps;
  }

  /** Cleaning keeps the shape of the form: the same steps with the same fields. */
  lemma CleanFormConfigShape(config: FormConfig)
    ensures var r := CleanFormConfig(config);
            r.(steps := config.steps) == config && |r.steps| == |config.steps|
            && forall i :: 0 <= i < |r.steps| ==>
                 r.steps[i].(fields := config.steps[i].fields) == config.steps[i]
                 && |r.steps[i].fields| == |config.steps[i].fields|
                 && forall j :: 0 <= j < |r.steps[i].fields| ==>
                      r.steps[i].fields[j].id == config.steps[i].fields[j].id
                      && r.steps[i].fields[j].order == config.steps[i].fields[j].order
  {
  }

  // ---------------------------------------------------------------------------
  // API exchange format

  /** A field as configToApiFormat emits it and apiFormatToConfig reads it (every key
      may be absent on input, except the type and the label). */
  datatype ApiField = ApiField(
    ftype: FieldType,
    labelText: string,
    placeholder: Option<string>,
    helpText: Option<string>,
    defaultValue: Value,
    validation: Option<FieldValidation>,
    options: Option<seq<FieldOption>>,
    width: Option<Width>,
    order: Option<int>,
    required: Option<bool>,
    apiConfig: Option<FieldApiConfig>)

  datatype ApiStep = ApiStep(
    id: Option<string>,
    title: Option<string>,
    description: Option<string>,
    order: Option<int>,
    fields: Option<seq<ApiField>>)

  datatype ApiForm = ApiForm(
    id: Option<string>,
    title: Option<string>,
    description: Option<string>,
    layout: Option<Layout>,
    spacing: Option<Spacing>,
    steps: Option<seq<ApiStep>>)

  /** The generated ids apiFormatToConfig draws: one for the form, one per step index,
      one per (step index, field index). */
  datatype IdSource = IdSource(formId: string, stepId: nat -> string, fieldId: (nat, nat) -> string)

  function ExportField(f: Field): ApiField {
    ApiField(f.ftype, f.labelText, f.placeholder, f.helpText, f.defaultValue, f.validation,
             f.options, f.width, Some(f.order), f.required, f.apiConfig)
  }

  function ExportStep(s: Step): ApiStep {
    ApiStep(None, Some(s.title), s.description, Some(s.order), Some(MapSeq(s.fields, ExportField)))
  }

  /** configToApiFormat: ids, names and the presentation attributes are not sent. */
  function ConfigToApiFormat(c: FormConfig): ApiForm {
    ApiForm(None, Some(c.title), c.description, Some(c.layout), Some(c.spacing),
            Some(MapSeq(c.steps, ExportStep)))
  }

  function ImportField(af: ApiField, stepIndex: nat, fieldIndex: nat, stepId: Option<string>, ids: IdSource): Field {
    BareField(ids.fieldId(stepIndex, fieldIndex), af.ftype, af.labelText, af.order.GetOr(fieldIndex)).(
      stepId := stepId,
      placeholder := af.placeholder,
      helpText := af.helpText,
      defaultValue := af.defaultValue,
      validation := af.validation,
      options := af.options,
      width := Some(af.width.GetOr(Full)),
      required := af.required,
      apiConfig := af.apiConfig)
  }

  function ImportStep(st: ApiStep, i: nat, ids: IdSource): Step {
    var fields := st.fields.GetOr([]);
    Step(ids.stepId(i), OrElse(st.title, "Étape " + NatToString(i + 1)), Some(OrElse(st.description, "")),
         st.order.GetOr(i),
         seq(|fields|, j requires 0 <= j < |fields| => ImportField(fields[j], i, j, st.id, ids)),
         None)
  }

  /** apiFormatToConfig. */
  function ApiFormatToConfig(api: ApiForm, ids: IdSource): FormConfig {
    var steps := api.steps.GetOr([]);
    FormConfig(OrElse(api.id, ids.formId), OrElse(api.title, "Nouveau formulaire"),
               Some(OrElse(api.description, "")),
               seq(|steps|, i requires 0 <= i < |steps| => ImportStep(steps[i], i, ids)),
               api.layout.GetOr(Vertical), api.spacing.GetOr(Normal))
  }

  /** The defaults of the import: vertical layout, normal spacing, no steps when none
      are given, "Étape n" for an untitled step, the array index for a missing order,
      and full width; every step and field gets a freshly drawn id. */
  lemma ApiFormatDefaults(api: ApiForm, ids: IdSource)
    ensures var r := ApiFormatToConfig(api, ids);
            (api.layout.None? ==> r.layout == Vertical) && (api.spacing.None? ==> r.spacing == Normal)
            && (api.title.None? ==> r.title == "Nouveau formulaire")
            && (api.steps.None? ==> r.steps == [])
            && (api.steps.Some? ==> |r.steps| == |api.steps.value|)
    ensures var r := ApiFormatToConfig(api, ids);
            forall i :: 0 <= i < |r.steps| ==>
              var st := api.steps.value[i];
              r.steps[i].id == ids.stepId(i)
              && r.steps[i].order == (if st.order.Some? then st.order.value else i)
              && (st.title.None? ==> r.steps[i].title == "Étape " + NatToString(i + 1))
              && (st.fields.None? ==> r.steps[i].fields == [])
              && forall j :: 0 <= j < |r.steps[i].fields| ==>
                   var af := st.fields.value[j];
                   r.steps[i].fields[j].id == ids.fieldId(i, j)
                   && r.steps[i].fields[j].order == (if af.order.Some? then af.order.value else j)
                   && r.steps[i].fields[j].width == Some(if af.width.Some? then af.width.value else Full)
                   && r.steps[i].fields[j].stepId == st.id
                   && r.steps[i].fields[j].name.None?
  {
  }

  /** configToApiFormat followed by apiFormatToConfig is not the identity: the API
      format carries no ids, so the form and field ids are drawn afresh, names are lost
      and the fields' `stepId` becomes undefined; titles, orders and the exported field
      attributes survive. */
  lemma ApiFormatRoundTrip(c: FormConfig, ids: IdSource)
    ensures var r := ApiFormatToConfig(ConfigToApiFormat(c), ids);
            r.id == ids.formId && r.title == (if c.title != "" then c.title else "Nouveau formulaire")
            && r.layout == c.layout && r.spacing == c.spacing && |r.steps| == |c.steps|
    ensures var r := ApiFormatToConfig(ConfigToApiFormat(c), ids);
            forall i :: 0 <= i < |c.steps| ==>
              r.steps[i].order == c.steps[i].order && |r.steps[i].fields| == |c.steps[i].fields|
              && (c.steps[i].title != "" ==> r.steps[i].title == c.steps[i].title)
              && forall j :: 0 <= j < |c.steps[i].fields| ==>
                   var f, g := c.steps[i].fields[j], r.steps[i].fields[j];
                   g.ftype == f.ftype && g.labelText == f.labelText && g.order == f.order
                   && g.placeholder == f.placeholder && g.helpText == f.helpText
                   && g.defaultValue == f.defaultValue && g.validation == f.validation
                   && g.options == f.options && g.required == f.required && g.apiConfig == f.apiConfig
                   && g.width == Some(f.width.GetOr(Full))
                   && g.name.None? && g.stepId.None? && g.id == ids.fieldId(i, j)
  {
  }

  // ---------------------------------------------------------------------------
  // Structural check of an imported configuration

  /** `typeof v[key] === 'string'` for a value that is known not to be undefined or null. */
  predicate HasStringProp(v: Value, key: string) {
    Prop(v, key).Got? && Prop(v, key).value.Str?
  }

  /** `Array.isArray(v[key])`. */
  predicate HasArrayProp(v: Value, key: string) {
    Prop(v, key).Got? && Prop(v, key).value.Arr?
  }

  predicate FieldShapeOk(f: Value) {
    Truthy(f) && HasStringProp(f, "label") && HasStringProp(f, "type")
  }

  predicate StepShapeOk(st: Value) {
    Truthy(st) && HasStringProp(st, "title") && HasArrayProp(st, "fields")
    && forall f :: f in Prop(st, "fields").value.items ==> FieldShapeOk(f)
  }

  /** isValidFormConfig: an object with a string title and an array of steps, each
      step with a string title and an array of fields, each field with a string label
      and a string type. */
  predicate IsValidFormConfig(v: Value) {
    Truthy(v) && (v.Obj? || v.Arr?) && HasStringProp(v, "title") && HasArrayProp(v, "steps")
    && forall st :: st in Prop(v, "steps").value.items ==> StepShapeOk(st)
  }

  function LayoutName(l: Layout): string {
    if l.Vertical? then "VERTICAL" else "HORIZONTAL"
  }

  function SpacingName(s: Spacing): string {
    match s
    case Compact => "COMPACT"
    case Normal => "NORMAL"
    case Relaxed => "RELAXED"
  }

  function OptionalStr(m: map<string, Value>, key: string, v: Option<string>): map<string, Value> {
    if v.Some? then m[key := Str(v.value)] else m
  }

  /** The JSON object of a field (its identifying and textual attributes). */
  function EncodeField(f: Field): Value {
    var optional := OptionalStr(OptionalStr(OptionalStr(OptionalStr(map[], "name", f.name), "stepId", f.stepId),
                                            "placeholder", f.placeholder), "helpText", f.helpText);
    Obj(optional["id" := Str(f.id)]["type" := Str(f.ftype.Name())]["label" := Str(f.labelText)]
                ["order" := Num(f.order)])
  }

  function EncodeStep(s: Step): Value {
    Obj(OptionalStr(map[], "description", s.description)["id" := Str(s.id)]["title" := Str(s.title)]
          ["order" := Num(s.order)]["fields" := Arr(MapSeq(s.fields, EncodeField))])
  }

  /** The JSON object of a configuration, as a client would send it back. */
  function EncodeConfig(c: FormConfig): Value {
    Obj(OptionalStr(map[], "description", c.description)["id" := Str(c.id)]["title" := Str(c.title)]
          ["layout" := Str(LayoutName(c.layout))]["spacing" := Str(SpacingName(c.spacing))]
          ["steps" := Arr(MapSeq(c.steps, EncodeStep))])
  }

  lemma EncodedStepIsValid(s: Step)
    ensures StepShapeOk(EncodeStep(s))
  {
    var fields := MapSeq(s.fields, EncodeField);
    assert Prop(EncodeStep(s), "fields").value.items == fields;
    forall f | f in fields ensures FieldShapeOk(f) {
      var j :| 0 <= j < |fields| && fields[j] == f;
    }
  }

  /** Every configuration, once encoded, passes the structural check. */
  lemma EncodedConfigIsValid(c: FormConfig)
    ensures IsValidFormConfig(EncodeConfig(c))
  {
    var steps := MapSeq(c.steps, EncodeStep);
    assert Prop(EncodeConfig(c), "steps").value.items == steps;
    forall st | st in steps ensures StepShapeOk(st) {
      var i :| 0 <= i < |steps| && steps[i] == st;
      EncodedStepIsValid(c.steps[i]);
    }
  }

  /** Values the check rejects: null, an array (its own keys are no title), an object
      without steps, and one whose step lacks a field list. */
  lemma InvalidShapesRejected()
    ensures !IsValidFormConfig(Null) && !IsValidFormConfig(Arr([]))
    ensures !IsValidFormConfig(Obj(map["title" := Str("Contact")]))
    ensures !IsValidFormConfig(Obj(map["title" := Str("Contact"),
                                       "steps" := Arr([Obj(map["title" := Str("Étape 1")])])]))
  {
    var bad := Obj(map["title" := Str("Étape 1")]);
    assert !StepShapeOk(bad);
    assert bad in Prop(Obj(map["title" := Str("Contact"), "steps" := Arr([bad])]), "steps").value.items;
  }

  /** The check accepts only objects. */
  lemma ValidConfigIsObject(v: Value)
    requires IsValidFormConfig(v)
    ensures v.Obj?
  {
  }

  // ---------------------------------------------------------------------------
  // Empty form

  /** createEmptyFormConfig, with the two generated ids as parameters. */
  function CreateEmptyFormConfig(formId: string, stepId: string): (r: FormConfig)
    ensures |r.steps| == 1 && r.steps[0].order == 0 && r.steps[0].fields == []
    ensures r.steps[0].title == "Étape 1" && r.title == "Nouveau formulaire"
    ensures r.layout == Vertical && r.spacing == Normal
  {
    FormConfig(formId, "Nouveau formulaire", Some(""),
               [Step(stepId, "Étape 1", Some(""), 0, [], None)], Vertical, Normal)
  }

  /** The empty form passes the structural check, is fully complete, and reports no
      validation error. */
  lemma EmptyFormConfigFacts(formId: string, stepId: string, data: map<string, Value>, env: Coercions)
    ensures IsValidFormConfig(EncodeConfig(CreateEmptyFormConfig(formId, stepId)))
    ensures FormCompletion(CreateEmptyFormConfig(formId, stepId), data) == 100
    ensures FormErrors(AllFields(CreateEmptyFormConfig(formId, stepId).steps), data, env) == map[]
  {
    var c := CreateEmptyFormConfig(formId, stepId);
    EncodedConfigIsValid(c);
    OneStepFormCompletion(c, data);
    AllFieldsAppend([], c.steps[0]);
    assert c.steps == [] + [c.steps[0]];
    assert AllFields(c.steps) == [];
  }

  // ---------------------------------------------------------------------------
  // Statistics

  datatype FormStats = FormStats(
    totalSteps: nat,
    totalFields: nat,
    requiredFields: nat,
    optionalFields: int,
    fieldTypes: map<string, nat>,
    avgFieldsPerStep: nat)

  /** `steps.reduce((sum, step) => sum + step.fields.length, 0)`. */
  function SumFieldCounts(steps: seq<Step>): nat
    decreases |steps|
  {
    if steps == [] then 0 else SumFieldCounts(steps[..|steps| - 1]) + |steps[|steps| - 1].fields|
  }

  /** `steps.reduce((sum, step) => sum + step.fields.filter(required).length, 0)`. */
  function SumRequiredCounts(steps: seq<Step>): nat
    decreases |steps|
  {
    if steps == [] then 0 else SumRequiredCounts(steps[..|steps| - 1]) + |RequiredOf(steps[|steps| - 1].fields)|
  }

  /** `acc[field.type] = (acc[field.type] || 0) + 1` for each field in order. */
  function CountTypes(acc: map<string, nat>, fields: seq<Field>): map<string, nat>
    decreases |fields|
  {
    if fields == [] then acc
    else
      var m := CountTypes(acc, fields[..|fields| - 1]);
      var t := fields[|fields| - 1].ftype.Name();
      m[t := (if t in m then m[t] else 0) + 1]
  }

  function TypeCounts(steps: seq<Step>): map<string, nat>
    decreases |steps|
  {
    if steps == [] then map[] else CountTypes(TypeCounts(steps[..|steps| - 1]), steps[|steps| - 1].fields)
  }

  lemma {:induction false} SumFieldCountsIsTotal(steps: seq<Step>)
    ensures SumFieldCounts(steps) == |AllFields(steps)|
    ensures SumRequiredCounts(steps) == |RequiredOf(AllFields(steps))|
    decreases |steps|
  {
    if steps != [] {
      var init := steps[..|steps| - 1];
      SumFieldCountsIsTotal(init);
      FilterAppend(AllFields(init), steps[|steps| - 1].fields, IsRequiredField);
    }
  }

  /** getFormStats. */
  function GetFormStats(c: FormConfig): FormStats {
    var total := SumFieldCounts(c.steps);
    var required := SumRequiredCounts(c.steps);
    SumFieldCountsIsTotal(c.steps);
    FormStats(|c.steps|, total, required, total - required, TypeCounts(c.steps),
              if total > 0 then RoundDiv(total, |c.steps|) else 0)
  }

  function TypeNameIs(name: string): Field -> bool {
    (f: Field) => f.ftype.Name() == name
  }

  /** How many of `fields` have the type whose name is `name`. */
  function CountOfType(fields: seq<Field>, name: string): nat {
    |Filter(fields, TypeNameIs(name))|
  }

  lemma {:induction false} CountTypesSpec(acc: map<string, nat>, fields: seq<Field>, name: string)
    ensures name in CountTypes(acc, fields) <==> name in acc || CountOfType(fields, name) > 0
    ensures name in CountTypes(acc, fields) ==>
              CountTypes(acc, fields)[name] == (if name in acc then acc[name] else 0) + CountOfType(fields, name)
    decreases |fields|
  {
    if fields != [] {
      var init, last := fields[..|fields| - 1], fields[|fields| - 1];
      CountTypesSpec(acc, init, name);
      var m := CountTypes(acc, init);
      var t := last.ftype.Name();
      assert CountTypes(acc, fields) == m[t := (if t in m then m[t] else 0) + 1];
      assert Filter(fields, TypeNameIs(name))
             == Filter(init, TypeNameIs(name)) + (if t == name then [last] else []);
      assert CountOfType(fields, name) == CountOfType(init, name) + (if t == name then 1 else 0);
    }
  }

  lemma {:induction false} TypeCountsSpec(steps: seq<Step>, name: string)
    ensures name in TypeCounts(steps) <==> CountOfType(AllFields(steps), name) > 0
    ensures name in TypeCounts(steps) ==> TypeCounts(steps)[name] == CountOfType(AllFields(steps), name)
    decreases |steps|
  {
    if steps != [] {
      var init, last := steps[..|steps| - 1], steps[|steps| - 1];
      TypeCountsSpec(init, name);
      CountTypesSpec(TypeCounts(init), last.fields, name);
      FilterAppend(AllFields(init), last.fields, TypeNameIs(name));
    }
  }

  /** The statistics count every field once: the totals are those of the flattened
      field list and optional fields are the rest. */
  lemma FormStatsTotals(c: FormConfig)
    ensures var st := GetFormStats(c);
            st.totalSteps == |c.steps| && st.totalFields == |AllFields(c.steps)|
            && st.requiredFields == |RequiredOf(AllFields(c.steps))|
            && 0 <= st.optionalFields == st.totalFields - st.requiredFields
  {
    SumFieldCountsIsTotal(c.steps);
  }

  /** Every type name present maps to the number of fields of that type. */
  lemma FormStatsTypes(c: FormConfig, name: string)
    ensures var m := GetFormStats(c).fieldTypes;
            (name in m <==> CountOfType(AllFields(c.steps), name) > 0)
            && (name in m ==> m[name] == CountOfType(AllFields(c.steps), name))
  {
    TypeCountsSpec(c.steps, name);
  }

  /** The average is the rounded ratio of fields to steps, and 0 without fields. */
  lemma FormStatsAverage(c: FormConfig)
    ensures var st := GetFormStats(c);
            (st.totalFields == 0 ==> st.avgFieldsPerStep == 0)
            && (st.totalFields > 0 ==>
                  |c.steps| > 0
                  && 2 * |c.steps| * st.avgFieldsPerStep <= 2 * st.totalFields + |c.steps|
                  < 2 * |c.steps| * (st.avgFieldsPerStep + 1))
  {
    SumFieldCountsIsTotal(c.steps);
  }
}
