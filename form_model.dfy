/** The form configuration tree of types/form.ts: a FormConfig owns Steps, a Step owns
    Fields. Optional TypeScript properties are `Option`s; `name` and `stepId` are
    optional as well, because apiFormatToConfig builds fields without a `name` and
    copies `stepId` from a step object that may carry no id. */
module FormModel {
  import opened Common
  import opened JsValues

  datatype FieldType =
    | Text | Email | Password | Number | Tel | Url | Textarea | Select | Multiselect
    | Radio | Checkbox | Date | DatetimeLocal | File | Switch | Range
  {
    /** The string the source uses for the type. */
    function Name(): string {
      match this
      case Text => "text"
      case Email => "email"
      case Password => "password"
      case Number => "number"
      case Tel => "tel"
      case Url => "url"
      case Textarea => "textarea"
      case Select => "select"
      case Multiselect => "multiselect"
      case Radio => "radio"
      case Checkbox => "checkbox"
      case Date => "date"
      case DatetimeLocal => "datetime-local"
      case File => "file"
      case Switch => "switch"
      case Range => "range"
    }
  }

  datatype Width = Full | Half | Third | Quarter
  datatype Position = Default | Left | Right | Center
  datatype Layout = Vertical | Horizontal
  datatype Spacing = Compact | Normal | Relaxed

  /** FieldValidation: every rule optional. */
  datatype FieldValidation = FieldValidation(
    required: Option<bool>,
    minLength: Option<int>,
    maxLength: Option<int>,
    min: Option<int>,
    max: Option<int>,
    pattern: Option<string>,
    email: Option<bool>)

  const NoRules := FieldValidation(None, None, None, None, None, None, None)

  /** The value of a FormFieldOption: `string | number`. */
  datatype OptionValue = OptStr(s: string) | OptNum(n: int)

  datatype FieldOption = FieldOption(labelText: string, value: OptionValue, disabled: Option<bool>)

  // Conditional logic is part of the data model only: no evaluator exists in the source.
  datatype RuleOperator =
    | Equals | NotEquals | Contains | NotContains | Empty | NotEmpty | GreaterThan | LessThan
  datatype ConditionalRule = ConditionalRule(targetFieldId: string, operator: RuleOperator, value: Value)
  datatype LogicAction = Show | Hide | Require | Disable
  datatype LogicalOperator = And | Or
  datatype ConditionalLogic = ConditionalLogic(
    enabled: bool, action: LogicAction, logicalOperator: LogicalOperator, rules: seq<ConditionalRule>)

  /** ApiConfig of a field (an option source). */
  datatype ApiMethod = Get | Post | Put | Delete
  datatype FieldApiConfig = FieldApiConfig(
    httpMethod: ApiMethod,
    endpoint: string,
    responsePath: Option<string>,
    labelKey: Option<string>,
    valueKey: Option<string>,
    cacheTime: Option<int>,
    headers: Option<map<string, string>>,
    params: Option<map<string, Value>>)

  datatype Field = Field(
    id: string,
    name: Option<string>,
    ftype: FieldType,
    labelText: string,
    placeholder: Option<string>,
    helpText: Option<string>,
    defaultValue: Value,
    validation: Option<FieldValidation>,
    options: Option<seq<FieldOption>>,
    width: Option<Width>,
    order: int,
    stepId: Option<string>,
    required: Option<bool>,
    disabled: Option<bool>,
    readonly: Option<bool>,
    cssClass: Option<string>,
    icon: Option<string>,
    prefix: Option<string>,
    suffix: Option<string>,
    conditionalLogic: Option<ConditionalLogic>,
    hasApi: Option<bool>,
    apiConfig: Option<FieldApiConfig>,
    min: Option<int>,
    max: Option<int>,
    accept: Option<string>,
    step: Option<int>,
    multiple: Option<bool>,
    rows: Option<int>,
    position: Option<Position>)

  /** A field with only the required properties set. */
  function BareField(id: string, ftype: FieldType, labelText: string, order: int): Field {
    Field(id, None, ftype, labelText, None, None, Undefined, None, None, None, order, None,
          None, None, None, None, None, None, None, None, None, None,
          None, None, None, None, None, None, None)
  }

  datatype HttpMethod = HttpPost | HttpGet {
    function Name(): string {
      if HttpPost? then "POST" else "GET"
    }
  }

  datatype ApiFieldMapping = ApiFieldMapping(fieldId: string, parameterName: string, fieldLabel: Option<string>)

  /** StepApiConfig: the external verification attached to a step. */
  datatype StepApiConfig = StepApiConfig(
    enabled: bool,
    endpoint: string,
    httpMethod: Option<HttpMethod>,
    headers: Option<map<string, string>>,
    staticParams: Option<map<string, Value>>,
    fieldMappings: seq<ApiFieldMapping>,
    validationRequired: Option<bool>,
    successMessage: Option<string>,
    errorMessage: Option<string>)

  datatype Step = Step(
    id: string,
    title: string,
    description: Option<string>,
    order: int,
    fields: seq<Field>,
    apiConfig: Option<StepApiConfig>)

  datatype FormConfig = FormConfig(
    id: string,
    title: string,
    description: Option<string>,
    steps: seq<Step>,
    layout: Layout,
    spacing: Spacing)

  function FieldKey(f: Field): int { f.order }
  function StepKey(s: Step): int { s.order }

  /** All fields of all steps, step by step (`steps.flatMap(step => step.fields)`). */
  function AllFields(steps: seq<Step>): (r: seq<Field>)
    ensures steps == [] ==> r == []
    decreases |steps|
  {
    if steps == [] then [] else AllFields(steps[..|steps| - 1]) + steps[|steps| - 1].fields
  }

  lemma AllFieldsAppend(steps: seq<Step>, s: Step)
    ensures AllFields(steps + [s]) == AllFields(steps) + s.fields
  {
    assert (steps + [s])[..|steps|] == steps;
  }

  /** Every step's field orders are exactly their positions 0..n-1. */
  ghost predicate OrdersContiguous(fields: seq<Field>) {
    forall j :: 0 <= j < |fields| ==> fields[j].order == j
  }

  /** Partial<FormField>: each present key overwrites the attribute (Object.assign).
      Optional attributes take an `Option<Option<…>>`: `Some(None)` is a key that is
      present with the value undefined. */
  datatype FieldPatch = FieldPatch(
    id: Option<string>,
    name: Option<Option<string>>,
    ftype: Option<FieldType>,
    labelText: Option<string>,
    placeholder: Option<Option<string>>,
    helpText: Option<Option<string>>,
    defaultValue: Option<Value>,
    validation: Option<Option<FieldValidation>>,
    options: Option<Option<seq<FieldOption>>>,
    width: Option<Option<Width>>,
    order: Option<int>,
    stepId: Option<Option<string>>,
    required: Option<Option<bool>>,
    disabled: Option<Option<bool>>,
    readonly: Option<Option<bool>>,
    cssClass: Option<Option<string>>,
    icon: Option<Option<string>>,
    prefix: Option<Option<string>>,
    suffix: Option<Option<string>>,
    conditionalLogic: Option<Option<ConditionalLogic>>,
    hasApi: Option<Option<bool>>,
    apiConfig: Option<Option<FieldApiConfig>>,
    min: Option<Option<int>>,
    max: Option<Option<int>>,
    accept: Option<Option<string>>,
    step: Option<Option<int>>,
    multiple: Option<Option<bool>>,
    rows: Option<Option<int>>,
    position: Option<Option<Position>>)

  const EmptyPatch := FieldPatch(None, None, None, None, None, None, None, None, None, None,
                                 None, None, None, None, None, None, None, None, None, None,
                                 None, None, None, None, None, None, None, None, None)

  /** `Object.assign(field, updates)`. */
  function ApplyPatch(f: Field, p: FieldPatch): Field {
    Field(
      p.id.GetOr(f.id), p.name.GetOr(f.name), p.ftype.GetOr(f.ftype), p.labelText.GetOr(f.labelText),
      p.placeholder.GetOr(f.placeholder), p.helpText.GetOr(f.helpText),
      p.defaultValue.GetOr(f.defaultValue), p.validation.GetOr(f.validation),
      p.options.GetOr(f.options), p.width.GetOr(f.width), p.order.GetOr(f.order),
      p.stepId.GetOr(f.stepId), p.required.GetOr(f.required), p.disabled.GetOr(f.disabled),
      p.readonly.GetOr(f.readonly), p.cssClass.GetOr(f.cssClass), p.icon.GetOr(f.icon),
      p.prefix.GetOr(f.prefix), p.suffix.GetOr(f.suffix),
      p.conditionalLogic.GetOr(f.conditionalLogic), p.hasApi.GetOr(f.hasApi),
      p.apiConfig.GetOr(f.apiConfig), p.min.GetOr(f.min), p.max.GetOr(f.max),
      p.accept.GetOr(f.accept), p.step.GetOr(f.step), p.multiple.GetOr(f.multiple),
      p.rows.GetOr(f.rows), p.position.GetOr(f.position))
  }

  function Later<T>(a: Option<T>, b: Option<T>): Option<T> {
    if b.Some? then b else a
  }

  /** The single patch equivalent to assigning `p` and then `q`. */
  function MergePatches(p: FieldPatch, q: FieldPatch): FieldPatch {
    FieldPatch(
      Later(p.id, q.id), Later(p.name, q.name), Later(p.ftype, q.ftype), Later(p.labelText, q.labelText),
      Later(p.placeholder, q.placeholder), Later(p.helpText, q.helpText),
      Later(p.defaultValue, q.defaultValue), Later(p.validation, q.validation),
      Later(p.options, q.options), Later(p.width, q.width), Later(p.order, q.order),
      Later(p.stepId, q.stepId), Later(p.required, q.required), Later(p.disabled, q.disabled),
      Later(p.readonly, q.readonly), Later(p.cssClass, q.cssClass), Later(p.icon, q.icon),
      Later(p.prefix, q.prefix), Later(p.suffix, q.suffix),
      Later(p.conditionalLogic, q.conditionalLogic), Later(p.hasApi, q.hasApi),
      Later(p.apiConfig, q.apiConfig), Later(p.min, q.min), Later(p.max, q.max),
      Later(p.accept, q.accept), Later(p.step, q.step), Later(p.multiple, q.multiple),
      Later(p.rows, q.rows), Later(p.position, q.position))
  }

  /** Merging is what successive `Object.assign` calls do, an empty patch changes
      nothing, and assigning the same updates twice is the same as once. */
  lemma PatchLaws(f: Field, p: FieldPatch, q: FieldPatch)
    ensures ApplyPatch(ApplyPatch(f, p), q) == ApplyPatch(f, MergePatches(p, q))
    ensures ApplyPatch(f, EmptyPatch) == f
    ensures ApplyPatch(ApplyPatch(f, p), p) == ApplyPatch(f, p)
  {
  }
}
