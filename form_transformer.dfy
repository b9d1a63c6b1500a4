/** server/utils/form-transformer.ts: turning a form read from the database (with its
    steps and fields) into the FormConfig shape the client expects. Enumerated
    columns (type, layout, spacing, width, position) are passed through as the
    strings stored, as the source's type casts do; JSON columns go through
    safeJSONParse, whose parser is a parameter. */
module FormTransformer {
  import opened Common
  import opened JsValues
  import opened OrderSort

  /** A field row. Nullable columns are `Option`s. */
  datatype FieldRow = FieldRow(
    id: string, name: string, ftype: string, labelText: string,
    placeholder: Option<string>, helpText: Option<string>, defaultValue: Option<string>,
    validation: Option<string>, options: Option<string>, width: Option<string>,
    order: int, stepId: string,
    required: Option<bool>, disabled: Option<bool>, readonly: Option<bool>,
    cssClass: Option<string>, icon: Option<string>, prefix: Option<string>, suffix: Option<string>,
    conditionalLogic: Option<string>, hasApi: Option<bool>, apiConfig: Option<string>,
    min: Option<int>, max: Option<int>, accept: Option<string>, step: Option<int>,
    multiple: Option<bool>, rows: Option<int>, position: Option<string>)

  /** A step row with its related fields (absent when not included). */
  datatype StepRow = StepRow(id: string, title: string, description: Option<string>, order: int, fields: Option<seq<FieldRow>>)

  datatype FormRow = FormRow(
    id: string, title: string, description: Option<string>, layout: string, spacing: string,
    steps: Option<seq<StepRow>>)

  /** The client-side field as built here. */
  datatype OutField = OutField(
    id: string, name: string, ftype: string, labelText: string,
    placeholder: Option<string>, helpText: Option<string>, defaultValue: Option<string>,
    validation: Value, options: Value, width: string, order: int, stepId: string,
    required: bool, disabled: bool, readonly: bool,
    cssClass: Option<string>, icon: Option<string>, prefix: Option<string>, suffix: Option<string>,
    conditionalLogic: Value, hasApi: bool, apiConfig: Value,
    min: Option<int>, max: Option<int>, accept: Option<string>, step: Option<int>,
    multiple: bool, rows: Option<int>, position: string)

  datatype OutStep = OutStep(id: string, title: string, description: string, order: int, fields: seq<OutField>)

  datatype OutForm = OutForm(id: string, title: string, description: string, layout: string, spacing: string, steps: seq<OutStep>)

  /** A returned config, or the Error thrown for a missing form. */
  datatype Transformed = Transformed(form: OutForm) | InvalidData(message: string)

  /** `JSON.parse`: None when it throws. */
  type JsonParser = string -> Option<Value>
  /** `JSON.stringify`: None when it throws. */
  type JsonPrinter = Value -> Option<string>

  /** safeJSONParse. */
  function SafeJsonParse(s: Option<string>, parse: JsonParser): (r: Value)
    ensures s.None? || s.value == "" ==> r == Undefined
    ensures s.Some? && s.value != "" && parse(s.value).None? ==> r == Undefined
    ensures s.Some? && s.value != "" && parse(s.value).Some? ==> r == parse(s.value).value
  {
    if s.None? || s.value == "" then Undefined
    else match parse(s.value)
         case None => Undefined
         case Some(v) => v
  }

  /** safeJSONStringify. */
  function SafeJsonStringify(v: Value, stringify: JsonPrinter): (r: Option<string>)
    ensures !Truthy(v) ==> r.None?
    ensures Truthy(v) ==> r == stringify(v)
  {
    if !Truthy(v) then None else stringify(v)
  }

  /** `s || undefined` on a nullable string column: '' reads as absent. */
  function StrOrUndefined(s: Option<string>): Option<string> {
    if s.Some? && s.value != "" then s else None
  }

  /** `n || undefined` on a nullable number column: 0 reads as absent. */
  function NumOrUndefined(n: Option<int>): Option<int> {
    if n.Some? && n.value != 0 then n else None
  }

  /** `Boolean(b)` on a nullable boolean column. */
  function AsBoolean(b: Option<bool>): bool {
    b == Some(true)
  }

  function FieldOrder(f: FieldRow): int { f.order }
  function StepOrder(s: StepRow): int { s.order }
  function OutFieldOrder(f: OutField): int { f.order }
  function OutStepOrder(s: OutStep): int { s.order }

  function TransformField(f: FieldRow, parse: JsonParser): OutField {
    var options := SafeJsonParse(f.options, parse);
    OutField(
      f.id, f.name, f.ftype, f.labelText,
      StrOrUndefined(f.placeholder), StrOrUndefined(f.helpText), StrOrUndefined(f.defaultValue),
      SafeJsonParse(f.validation, parse), if Truthy(options) then options else Arr([]),
      OrElse(f.width, "full"), f.order, f.stepId,
      AsBoolean(f.required), AsBoolean(f.disabled), AsBoolean(f.readonly),
      StrOrUndefined(f.cssClass), StrOrUndefined(f.icon), StrOrUndefined(f.prefix), StrOrUndefined(f.suffix),
      SafeJsonParse(f.conditionalLogic, parse), AsBoolean(f.hasApi), SafeJsonParse(f.apiConfig, parse),
      NumOrUndefined(f.min), NumOrUndefined(f.max), StrOrUndefined(f.accept), NumOrUndefined(f.step),
      AsBoolean(f.multiple), NumOrUndefined(f.rows), OrElse(f.position, "default"))
  }

  function FieldTransformer(parse: JsonParser): FieldRow -> OutField {
    (f: FieldRow) => TransformField(f, parse)
  }

  function TransformStep(s: StepRow, parse: JsonParser): OutStep {
    OutStep(s.id, s.title, OrElse(s.description, ""), s.order,
            MapSeq(SortBy(s.fields.GetOr([]), FieldOrder), FieldTransformer(parse)))
  }

  function StepTransformer(parse: JsonParser): StepRow -> OutStep {
    (s: StepRow) => TransformStep(s, parse)
  }

  /** transformPrismaToFormConfig; `None` is a null or undefined form. */
  function TransformForm(row: Option<FormRow>, parse: JsonParser): (r: Transformed)
    ensures row.None? <==> r == InvalidData("Données de formulaire invalides")
  {
    match row
    case None => InvalidData("Données de formulaire invalides")
    case Some(form) =>
      Transformed(OutForm(form.id, form.title, OrElse(form.description, ""), form.layout, form.spacing,
                          MapSeq(SortBy(form.steps.GetOr([]), StepOrder), StepTransformer(parse))))
  }

  /** The fields of a step come out sorted by ascending order, as a stable sort of the
      transformed rows: same number, same elements. */
  lemma TransformStepSorts(s: StepRow, parse: JsonParser)
    ensures var out := TransformStep(s, parse).fields;
            var rows := MapSeq(s.fields.GetOr([]), FieldTransformer(parse));
            out == SortBy(rows, OutFieldOrder)
            && |out| == |s.fields.GetOr([])|
            && SortedBy(out, OutFieldOrder)
            && multiset(out) == multiset(rows)
            && forall k :: WithKey(out, OutFieldOrder, k) == WithKey(rows, OutFieldOrder, k)
  {
    var rows := MapSeq(s.fields.GetOr([]), FieldTransformer(parse));
    SortByMapCommutes(s.fields.GetOr([]), FieldTransformer(parse), FieldOrder, OutFieldOrder);
    SortByFacts(rows, OutFieldOrder);
  }

  /** The steps come out sorted by ascending order, as a stable sort of the transformed
      rows: same number, same elements. */
  lemma TransformFormSorts(form: FormRow, parse: JsonParser)
    ensures var out := TransformForm(Some(form), parse).form.steps;
            var rows := MapSeq(form.steps.GetOr([]), StepTransformer(parse));
            out == SortBy(rows, OutStepOrder)
            && |out| == |form.steps.GetOr([])|
            && SortedBy(out, OutStepOrder)
            && multiset(out) == multiset(rows)
            && forall k :: WithKey(out, OutStepOrder, k) == WithKey(rows, OutStepOrder, k)
  {
    var rows := MapSeq(form.steps.GetOr([]), StepTransformer(parse));
    SortByMapCommutes(form.steps.GetOr([]), StepTransformer(parse), StepOrder, OutStepOrder);
    SortByFacts(rows, OutStepOrder);
  }

  /** Defaults: missing descriptions become '', a missing width 'full', a missing
      position 'default', missing options []; the flags are plain booleans that hold
      only for a stored true; a stored 0 for min, max, step or rows reads as absent. */
  lemma TransformDefaults(f: FieldRow, s: StepRow, form: FormRow, parse: JsonParser)
    ensures var o := TransformField(f, parse);
            (f.width.None? ==> o.width == "full")
            && (f.width.Some? && f.width.value != "" ==> o.width == f.width.value)
            && (f.position.None? ==> o.position == "default")
            && (f.options.None? ==> o.options == Arr([]))
            && (o.required <==> f.required == Some(true))
            && (o.multiple <==> f.multiple == Some(true))
            && (o.hasApi <==> f.hasApi == Some(true))
            && (f.min == Some(0) ==> o.min.None?)
            && (f.rows == Some(0) ==> o.rows.None?)
            && (f.min.Some? && f.min.value != 0 ==> o.min == f.min)
    ensures s.description.None? ==> TransformStep(s, parse).description == ""
    ensures s.fields.None? ==> TransformStep(s, parse).fields == []
    ensures form.description.None? ==> TransformForm(Some(form), parse).form.description == ""
    ensures form.steps.None? ==> TransformForm(Some(form), parse).form.steps == []
  {
  }
}
