/** server/utils/form-validator.ts: the structural check the API applies to a form
    configuration received as JSON. The input is an arbitrary value; property reads on
    undefined or null throw a TypeError, which the check does not catch. */
module FormValidator {
  import opened Common
  import opened Strings
  import opened JsValues

  datatype ValidationResult = ValidationResult(isValid: bool, errors: seq<string>)

  /** A returned result, or the TypeError of reading a property of undefined/null. */
  datatype Outcome = Returned(result: ValidationResult) | ThrewTypeError

  /** `v[k]` on a value that can be read. */
  function Get(v: Value, k: string): Value {
    match Prop(v, k)
    case Got(x) => x
    case TypeError => Undefined
  }

  predicate Unreadable(v: Value) {
    v.Undefined? || v.Null?
  }

  /** `!v || typeof v !== 'string'`. */
  predicate NotAString(v: Value) {
    !Truthy(v) || !v.Str?
  }

  /** `!v || typeof v !== 'string' || v.trim().length === 0`. */
  predicate Blank(v: Value) {
    NotAString(v) || Trim(v.s) == ""
  }

  /** `v && v.length > k`. */
  predicate TooLong(v: Value, k: int) {
    Truthy(v) && LengthExceeds(v, k)
  }

  /** `v && !allowed.includes(v)`. */
  predicate NotAllowed(v: Value, allowed: seq<string>) {
    Truthy(v) && !(v.Str? && v.s in allowed)
  }

  /** `[p]` when the rule is broken. */
  function Flag<T>(broken: bool, p: T): seq<T> {
    if broken then [p] else []
  }

  /** `Étape i, Champ j`. */
  function Context(stepNo: nat, fieldNo: nat): string {
    "Étape " + NatToString(stepNo) + ", Champ " + NatToString(fieldNo)
  }

  /** The rules of validateField, each with its message. */
  datatype FieldProblem = NameMissing | TypeMissing | LabelMissing | LabelTooLong | BadWidth | BadPosition {
    function Message(context: string): string {
      match this
      case NameMissing => context + ": Le nom du champ est requis"
      case TypeMissing => context + ": Le type du champ est requis"
      case LabelMissing => context + ": Le label du champ est requis"
      case LabelTooLong => context + ": Le label ne peut pas dépasser 255 caractères"
      case BadWidth => context + ": Largeur invalide"
      case BadPosition => context + ": Position invalide"
    }
  }

  /** The rules of a step's title, for step `stepNo` (1-based). */
  datatype StepProblem = StepUntitled | StepTitleTooLong {
    function Message(stepNo: nat): string {
      match this
      case StepUntitled => "L'étape " + NatToString(stepNo) + " doit avoir un titre"
      case StepTitleTooLong => "Le titre de l'étape " + NatToString(stepNo) + " ne peut pas dépasser 255 caractères"
    }
  }

  /** The form-level rules. */
  datatype FormProblem = TitleRequired | TitleTooLong | DescriptionTooLong | BadLayout | BadSpacing {
    function Message(): string {
      match this
      case TitleRequired => "Le titre du formulaire est requis"
      case TitleTooLong => "Le titre ne peut pas dépasser 255 caractères"
      case DescriptionTooLong => "La description ne peut pas dépasser 1000 caractères"
      case BadLayout => "Layout invalide (doit être VERTICAL ou HORIZONTAL)"
      case BadSpacing => "Spacing invalide (doit être COMPACT, NORMAL ou RELAXED)"
    }
  }

  function Flags3<T(!new)>(b1: bool, p1: T, b2: bool, p2: T, b3: bool, p3: T): (r: seq<T>)
    ensures |r| <= 3
    ensures forall x :: x in r <==> (b1 && x == p1) || (b2 && x == p2) || (b3 && x == p3)
  {
    Flag(b1, p1) + Flag(b2, p2) + Flag(b3, p3)
  }

  function FieldProblemsOf(name: bool, ftype: bool, labelMissing: bool, labelLong: bool, width: bool, position: bool): seq<FieldProblem> {
    Flags3(name, NameMissing, ftype, TypeMissing, labelMissing, LabelMissing)
    + Flags3(labelLong, LabelTooLong, width, BadWidth, position, BadPosition)
  }

  /** The broken field rules, in the order they are checked. */
  function FieldProblems(field: Value): seq<FieldProblem> {
    var labelValue := Get(field, "label");
    FieldProblemsOf(NotAString(Get(field, "name")), NotAString(Get(field, "type")), Blank(labelValue),
                    TooLong(labelValue, 255), NotAllowed(Get(field, "width"), ["full", "half", "third", "quarter"]),
                    NotAllowed(Get(field, "position"), ["default", "left", "right", "center"]))
  }

  function StepProblems(step: Value): seq<StepProblem> {
    var title := Get(step, "title");
    Flag(Blank(title), StepUntitled) + Flag(TooLong(title, 255), StepTitleTooLong)
  }

  function FormProblemsOf(title: bool, titleLong: bool, description: bool, layout: bool, spacing: bool): seq<FormProblem> {
    Flag(title, TitleRequired) + Flag(titleLong, TitleTooLong) + Flag(description, DescriptionTooLong)
    + Flag(layout, BadLayout) + Flag(spacing, BadSpacing)
  }

  function FormProblems(data: Value): seq<FormProblem> {
    var title := Get(data, "title");
    FormProblemsOf(Blank(title), TooLong(title, 255), TooLong(Get(data, "description"), 1000),
                   NotAllowed(Get(data, "layout"), ["VERTICAL", "HORIZONTAL"]),
                   NotAllowed(Get(data, "spacing"), ["COMPACT", "NORMAL", "RELAXED"]))
  }

  /** validateField(field, context): the messages of the broken rules. */
  function FieldChecks(field: Value, context: string): seq<string> {
    MapSeq(FieldProblems(field), (p: FieldProblem) => p.Message(context))
  }

  function StepHeadChecks(step: Value, stepNo: nat): seq<string> {
    MapSeq(StepProblems(step), (p: StepProblem) => p.Message(stepNo))
  }

  function HeadChecks(data: Value): seq<string> {
    MapSeq(FormProblems(data), (p: FormProblem) => p.Message())
  }

  /** The three groups of checks; the walk over steps and fields below is written once
      for any such group and used with `Standard`. */
  datatype Rules = Rules(
    head: Value -> seq<string>,
    stepHead: (Value, nat) -> seq<string>,
    field: (Value, string) -> seq<string>)

  const Standard := Rules(HeadChecks, StepHeadChecks, FieldChecks)

  /** The errors of the fields of step `stepNo` (1-based), or None when one of them is
      undefined or null. */
  function FieldsChecks(fields: seq<Value>, stepNo: nat, rules: Rules): Option<seq<string>>
    decreases |fields|
  {
    if fields == [] then Some([])
    else
      var last := fields[|fields| - 1];
      match FieldsChecks(fields[..|fields| - 1], stepNo, rules)
      case None => None
      case Some(e) => if Unreadable(last) then None else Some(e + rules.field(last, Context(stepNo, |fields|)))
  }

  /** The errors of one step, its fields included when `fields` is an array. */
  function StepChecks(step: Value, stepNo: nat, rules: Rules): Option<seq<string>> {
    if Unreadable(step) then None
    else
      var fields := Get(step, "fields");
      if !fields.Arr? then Some(rules.stepHead(step, stepNo))
      else match FieldsChecks(fields.items, stepNo, rules)
           case None => None
           case Some(e) => Some(rules.stepHead(step, stepNo) + e)
  }

  function StepsChecks(steps: seq<Value>, rules: Rules): Option<seq<string>>
    decreases |steps|
  {
    if steps == [] then Some([])
    else
      match StepsChecks(steps[..|steps| - 1], rules)
      case None => None
      case Some(e) =>
        match StepChecks(steps[|steps| - 1], |steps|, rules)
        case None => None
        case Some(e') => Some(e + e')
  }

  const NoSteps := "Au moins une étape est requise"

  predicate HasSteps(data: Value) {
    Get(data, "steps").Arr? && |Get(data, "steps").items| > 0
  }

  /** All errors of validateFormConfig, or None when it throws. */
  function ConfigChecks(data: Value, rules: Rules): Option<seq<string>> {
    if Unreadable(data) then None
    else if !HasSteps(data) then Some(rules.head(data) + [NoSteps])
    else match StepsChecks(Get(data, "steps").items, rules)
         case None => None
         case Some(e) => Some(rules.head(data) + e)
  }

  function Verdict(errors: seq<string>): (r: ValidationResult)
    ensures r.errors == errors && (r.isValid <==> errors == [])
  {
    ValidationResult(|errors| == 0, errors)
  }

  function OutcomeWith(data: Value, rules: Rules): Outcome {
    match ConfigChecks(data, rules)
    case None => ThrewTypeError
    case Some(e) => Returned(Verdict(e))
  }

  function ConfigOutcome(data: Value): Outcome {
    OutcomeWith(data, Standard)
  }

  // ---------------------------------------------------------------------------
  // The imperative check

  lemma {:induction false} FieldsChecksNoneGrows(fields: seq<Value>, stepNo: nat, rules: Rules, k: nat)
    requires k <= |fields| && FieldsChecks(fields[..k], stepNo, rules).None?
    ensures FieldsChecks(fields, stepNo, rules).None?
    decreases |fields|
  {
    if k < |fields| {
      assert fields[..|fields| - 1][..k] == fields[..k];
      FieldsChecksNoneGrows(fields[..|fields| - 1], stepNo, rules, k);
    } else {
      assert fields[..k] == fields;
    }
  }

  lemma {:induction false} StepsChecksNoneGrows(steps: seq<Value>, rules: Rules, k: nat)
    requires k <= |steps| && StepsChecks(steps[..k], rules).None?
    ensures StepsChecks(steps, rules).None?
    decreases |steps|
  {
    if k < |steps| {
      assert steps[..|steps| - 1][..k] == steps[..k];
      StepsChecksNoneGrows(steps[..|steps| - 1], rules, k);
    } else {
      assert steps[..k] == steps;
    }
  }

  /** `step.fields.forEach(...)`: appends the field errors of one step to `errors`;
      `ok` is false when a field is undefined or null (the TypeError). */
  method CheckFields(errors0: seq<string>, fields: seq<Value>, stepNo: nat, rules: Rules) returns (ok: bool, errors: seq<string>)
    ensures ok <==> FieldsChecks(fields, stepNo, rules).Some?
    ensures ok ==> errors == errors0 + FieldsChecks(fields, stepNo, rules).value
  {
    errors := errors0;
    for j := 0 to |fields|
      invariant FieldsChecks(fields[..j], stepNo, rules).Some?
      invariant errors == errors0 + FieldsChecks(fields[..j], stepNo, rules).value
    {
      assert fields[..j + 1][..j] == fields[..j];
      var field := fields[j];
      if Unreadable(field) {
        FieldsChecksNoneGrows(fields, stepNo, rules, j + 1);
        return false, errors;
      }
      errors := errors + rules.field(field, Context(stepNo, j + 1));
    }
    assert fields[..|fields|] == fields;
    ok := true;
  }

  /** The walk of validateFormConfig under a group of checks. */
  method Walk(data: Value, rules: Rules) returns (r: Outcome)
    ensures r == OutcomeWith(data, rules)
  {
    if Unreadable(data) {
      return ThrewTypeError;
    }
    var errors := rules.head(data);
    if !HasSteps(data) {
      errors := errors + [NoSteps];
      return Returned(ValidationResult(|errors| == 0, errors));
    }
    var ok;
    ok, errors := WalkSteps(errors, Get(data, "steps").items, rules);
    if !ok {
      return ThrewTypeError;
    }
    r := Returned(ValidationResult(|errors| == 0, errors));
  }

  /** The callback of `data.steps.forEach` for one step: its own checks, then its
      fields when `fields` is an array; `ok` is false on the TypeError. */
  method CheckStep(errors0: seq<string>, step: Value, stepNo: nat, rules: Rules) returns (ok: bool, errors: seq<string>)
    ensures ok <==> StepChecks(step, stepNo, rules).Some?
    ensures ok ==> errors == errors0 + StepChecks(step, stepNo, rules).value
  {
    if Unreadable(step) {
      return false, errors0;
    }
    errors := errors0 + rules.stepHead(step, stepNo);
    var fields := Get(step, "fields");
    ok := true;
    if fields.Arr? {
      ok, errors := CheckFields(errors, fields.items, stepNo, rules);
    }
  }

  /** One round of the step walk. */
  lemma StepsChecksStep(steps: seq<Value>, rules: Rules, i: nat)
    requires i < |steps| && StepsChecks(steps[..i], rules).Some?
    ensures StepChecks(steps[i], i + 1, rules).None? ==> StepsChecks(steps[..i + 1], rules).None?
    ensures StepChecks(steps[i], i + 1, rules).Some? ==>
              StepsChecks(steps[..i + 1], rules)
              == Some(StepsChecks(steps[..i], rules).value + StepChecks(steps[i], i + 1, rules).value)
  {
    assert steps[..i + 1][..i] == steps[..i];
  }

  /** `data.steps.forEach(...)`. */
  method WalkSteps(head: seq<string>, steps: seq<Value>, rules: Rules) returns (ok: bool, errors: seq<string>)
    ensures ok <==> StepsChecks(steps, rules).Some?
    ensures ok ==> errors == head + StepsChecks(steps, rules).value
  {
    errors := head;
    for i := 0 to |steps|
      invariant StepsChecks(steps[..i], rules).Some?
      invariant errors == head + StepsChecks(steps[..i], rules).value
    {
      StepsChecksStep(steps, rules, i);
      ghost var before := errors;
      var stepOk;
      stepOk, errors := CheckStep(errors, steps[i], i + 1, rules);
      if !stepOk {
        StepsChecksNoneGrows(steps, rules, i + 1);
        return false, errors;
      }
      assert errors == before + StepChecks(steps[i], i + 1, rules).value;
    }
    assert steps[..|steps|] == steps;
    ok := true;
  }

  /** validateFormConfig. */
  method ValidateFormConfig(data: Value) returns (r: Outcome)
    ensures r == ConfigOutcome(data)
  {
    r := Walk(data, Standard);
  }

  // ---------------------------------------------------------------------------
  // Properties

  /** isValid holds exactly when no error was collected; an unreadable input throws. */
  lemma ConfigOutcomeShape(data: Value)
    ensures ConfigOutcome(data).Returned? ==>
              (ConfigOutcome(data).result.isValid <==> ConfigOutcome(data).result.errors == [])
    ensures Unreadable(data) ==> ConfigOutcome(data) == ThrewTypeError
  {
  }

  /** The step walk throws exactly when a step, or an entry of a step's `fields` array,
      is undefined or null. */
  lemma {:induction false} StepsChecksThrowIff(steps: seq<Value>, rules: Rules)
    ensures StepsChecks(steps, rules).None? <==>
              exists i :: 0 <= i < |steps| && (Unreadable(steps[i])
                 || (Get(steps[i], "fields").Arr? && FieldsChecks(Get(steps[i], "fields").items, i + 1, rules).None?))
    decreases |steps|
  {
    if steps != [] {
      var init := steps[..|steps| - 1];
      StepsChecksThrowIff(init, rules);
      forall i | 0 <= i < |init| ensures init[i] == steps[i] { }
    }
  }

  lemma {:induction false} FieldsChecksThrowIff(fields: seq<Value>, stepNo: nat, rules: Rules)
    ensures FieldsChecks(fields, stepNo, rules).None? <==> exists j :: 0 <= j < |fields| && Unreadable(fields[j])
    decreases |fields|
  {
    if fields != [] {
      var init := fields[..|fields| - 1];
      FieldsChecksThrowIff(init, stepNo, rules);
      forall j | 0 <= j < |init| ensures init[j] == fields[j] { }
    }
  }

  /** The form-level messages come first. */
  lemma HeadChecksFirst(data: Value)
    ensures var e := ConfigChecks(data, Standard);
            e.Some? ==> |HeadChecks(data)| <= |e.value| && e.value[..|HeadChecks(data)|] == HeadChecks(data)
  {
  }

  lemma FormProblemsOfSpec(title: bool, titleLong: bool, description: bool, layout: bool, spacing: bool)
    ensures var r := FormProblemsOf(title, titleLong, description, layout, spacing);
            (TitleRequired in r <==> title) && (TitleTooLong in r <==> titleLong)
            && (DescriptionTooLong in r <==> description) && (BadLayout in r <==> layout)
            && (BadSpacing in r <==> spacing)
  {
  }

  /** Each form-level rule is reported exactly when it is broken. */
  lemma FormProblemsSpec(data: Value)
    ensures TitleRequired in FormProblems(data) <==> Blank(Get(data, "title"))
    ensures TitleTooLong in FormProblems(data) <==> TooLong(Get(data, "title"), 255)
    ensures DescriptionTooLong in FormProblems(data) <==> TooLong(Get(data, "description"), 1000)
    ensures BadLayout in FormProblems(data) <==> NotAllowed(Get(data, "layout"), ["VERTICAL", "HORIZONTAL"])
    ensures BadSpacing in FormProblems(data) <==> NotAllowed(Get(data, "spacing"), ["COMPACT", "NORMAL", "RELAXED"])
  {
    var title := Get(data, "title");
    FormProblemsOfSpec(Blank(title), TooLong(title, 255), TooLong(Get(data, "description"), 1000),
                       NotAllowed(Get(data, "layout"), ["VERTICAL", "HORIZONTAL"]),
                       NotAllowed(Get(data, "spacing"), ["COMPACT", "NORMAL", "RELAXED"]));
  }

  /** A title that is a string of more than 255 characters draws the length error but
      not the required error, and a missing title only the required one. */
  lemma TitleChecksSeparate(data: Value)
    ensures Get(data, "title").Str? && |Get(data, "title").s| > 255 && Trim(Get(data, "title").s) != "" ==>
              TooLong(Get(data, "title"), 255) && !Blank(Get(data, "title"))
    ensures Get(data, "title").Undefined? ==> Blank(Get(data, "title")) && !TooLong(Get(data, "title"), 255)
  {
  }

  lemma FieldProblemsOfSpec(name: bool, ftype: bool, labelMissing: bool, labelLong: bool, width: bool, position: bool)
    ensures var r := FieldProblemsOf(name, ftype, labelMissing, labelLong, width, position);
            (NameMissing in r <==> name) && (TypeMissing in r <==> ftype) && (LabelMissing in r <==> labelMissing)
            && (LabelTooLong in r <==> labelLong) && (BadWidth in r <==> width) && (BadPosition in r <==> position)
            && |r| <= 6
  {
    var a := Flags3(name, NameMissing, ftype, TypeMissing, labelMissing, LabelMissing);
    var b := Flags3(labelLong, LabelTooLong, width, BadWidth, position, BadPosition);
    assert FieldProblemsOf(name, ftype, labelMissing, labelLong, width, position) == a + b;
    assert NameMissing !in b && TypeMissing !in b && LabelMissing !in b;
    assert LabelTooLong !in a && BadWidth !in a && BadPosition !in a;
  }

  /** Each field rule is reported exactly when it is broken, at most once. */
  lemma FieldProblemsSpec(field: Value)
    ensures NameMissing in FieldProblems(field) <==> NotAString(Get(field, "name"))
    ensures TypeMissing in FieldProblems(field) <==> NotAString(Get(field, "type"))
    ensures LabelMissing in FieldProblems(field) <==> Blank(Get(field, "label"))
    ensures LabelTooLong in FieldProblems(field) <==> TooLong(Get(field, "label"), 255)
    ensures BadWidth in FieldProblems(field) <==> NotAllowed(Get(field, "width"), ["full", "half", "third", "quarter"])
    ensures BadPosition in FieldProblems(field)
            <==> NotAllowed(Get(field, "position"), ["default", "left", "right", "center"])
    ensures |FieldProblems(field)| <= 6
  {
    var labelValue := Get(field, "label");
    FieldProblemsOfSpec(NotAString(Get(field, "name")), NotAString(Get(field, "type")), Blank(labelValue),
                        TooLong(labelValue, 255), NotAllowed(Get(field, "width"), ["full", "half", "third", "quarter"]),
                        NotAllowed(Get(field, "position"), ["default", "left", "right", "center"]));
  }

  /** Each step rule is reported exactly when it is broken. */
  lemma StepProblemsSpec(step: Value)
    ensures StepUntitled in StepProblems(step) <==> Blank(Get(step, "title"))
    ensures StepTitleTooLong in StepProblems(step) <==> TooLong(Get(step, "title"), 255)
  {
  }

  /** Without a non-empty array of steps the only further message is the missing-steps
      one: no step or field is checked. */
  lemma NoStepsNoStepErrors(data: Value)
    requires !Unreadable(data) && !HasSteps(data)
    ensures ConfigChecks(data, Standard) == Some(HeadChecks(data) + ["Au moins une étape est requise"])
  {
  }

  // ---------------------------------------------------------------------------
  // validateId

  /** validateId(id): undefined or empty → 'ID requis'; whitespace only → 'ID
      invalide'; otherwise valid. */
  function ValidateId(id: Option<string>): (r: ValidationResult)
    ensures r.isValid <==> r.errors == []
    ensures r.isValid <==> id.Some? && Trim(id.value) != ""
    ensures (id.None? || id.value == "") ==> r.errors == ["ID requis"]
    ensures id.Some? && id.value != "" && Trim(id.value) == "" ==> r.errors == ["ID invalide"]
  {
    if id.None? || id.value == "" then Verdict(["ID requis"])
    else if Trim(id.value) == "" then Verdict(["ID invalide"])
    else Verdict([])
  }
}
