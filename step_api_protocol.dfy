/** The external verification of a step, as the two composables useStepApiStore.ts and
    useStepApi.ts perform it: build a payload from the submitted values, forward it
    through the internal gateway `/api/form/step-validation`, and turn the gateway's
    answer (or its error) into a message and a decision whether the user may proceed.
    The gateway call itself is not modelled: its outcome is an input value. */
module StepApiProtocol {
  import opened Common
  import opened JsValues
  import opened FormModel
  import FormHelpers

  // ---------------------------------------------------------------------------
  // Payload

  /** `formData[field.name]`: a field without a name is read under the key "undefined",
      which is what a JavaScript property access with an undefined key does. */
  function NameKey(name: Option<string>): string {
    name.GetOr("undefined")
  }

  /** `allFields.find(f => f.id === id)` followed by `formData[field.name]`, kept only
      when the field exists and the value is not undefined. */
  function SubmittedValue(data: map<string, Value>, fields: seq<Field>, id: string): (r: Option<(string, Value)>)
    ensures r.Some? ==> !r.value.1.Undefined?
    ensures r.Some? <==> Find(fields, FormHelpers.IdIs(id)).Some?
                         && !Lookup(data, NameKey(Find(fields, FormHelpers.IdIs(id)).value.name)).Undefined?
  {
    match Find(fields, FormHelpers.IdIs(id))
    case None => None
    case Some(f) =>
      var v := Lookup(data, NameKey(f.name));
      if v.Undefined? then None else Some((NameKey(f.name), v))
  }

  /** Overlaying a sequence of items on a base record: each item may set one key, and
      a later item overwrites an earlier one (`dataToSend[key] = value` in a loop). */
  function Overlay<T>(base: map<string, Value>, items: seq<T>, entry: T -> Option<(string, Value)>): map<string, Value>
    decreases |items|
  {
    if items == [] then base
    else
      var acc := Overlay(base, items[..|items| - 1], entry);
      match entry(items[|items| - 1])
      case None => acc
      case Some(kv) => acc[kv.0 := kv.1]
  }

  lemma OverlaySnoc<T>(base: map<string, Value>, items: seq<T>, x: T, entry: T -> Option<(string, Value)>)
    ensures Overlay(base, items + [x], entry)
            == match entry(x) case None => Overlay(base, items, entry) case Some(kv) => Overlay(base, items, entry)[kv.0 := kv.1]
  {
    assert (items + [x])[..|items|] == items;
  }

  /** A key of the result is a key of the base or a key some item sets. */
  lemma {:induction false} OverlayKeys<T>(base: map<string, Value>, items: seq<T>, entry: T -> Option<(string, Value)>, k: string)
    ensures k in Overlay(base, items, entry) <==>
              k in base || exists i :: 0 <= i < |items| && entry(items[i]).Some? && entry(items[i]).value.0 == k
    decreases |items|
  {
    if items != [] {
      var init := items[..|items| - 1];
      OverlayKeys(base, init, entry, k);
      if exists i :: 0 <= i < |items| && entry(items[i]).Some? && entry(items[i]).value.0 == k {
        var i :| 0 <= i < |items| && entry(items[i]).Some? && entry(items[i]).value.0 == k;
        if i < |init| { assert init[i] == items[i]; }
      }
    }
  }

  /** The value under a key is the one the last item setting that key gives. */
  lemma {:induction false} OverlayLastWins<T>(base: map<string, Value>, items: seq<T>, entry: T -> Option<(string, Value)>, i: nat)
    requires i < |items| && entry(items[i]).Some?
    requires forall j :: i < j < |items| && entry(items[j]).Some? ==> entry(items[j]).value.0 != entry(items[i]).value.0
    ensures entry(items[i]).value.0 in Overlay(base, items, entry)
    ensures Overlay(base, items, entry)[entry(items[i]).value.0] == entry(items[i]).value.1
    decreases |items|
  {
    var init := items[..|items| - 1];
    if i < |init| {
      assert init[i] == items[i];
      forall j | i < j < |init| && entry(init[j]).Some? ensures entry(init[j]).value.0 != entry(init[i]).value.0 {
        assert init[j] == items[j];
      }
      OverlayLastWins(base, init, entry, i);
    }
  }

  /** A key no item sets keeps its base value, or stays absent. */
  lemma {:induction false} OverlayUntouched<T>(base: map<string, Value>, items: seq<T>, entry: T -> Option<(string, Value)>, k: string)
    requires forall i :: 0 <= i < |items| && entry(items[i]).Some? ==> entry(items[i]).value.0 != k
    ensures k in Overlay(base, items, entry) <==> k in base
    ensures k in base ==> Overlay(base, items, entry)[k] == base[k]
    decreases |items|
  {
    if items != [] {
      var init := items[..|items| - 1];
      forall i | 0 <= i < |init| && entry(init[i]).Some? ensures entry(init[i]).value.0 != k {
        assert init[i] == items[i];
      }
      OverlayUntouched(base, init, entry, k);
    }
  }

  /** What a field mapping of the store contributes: nothing unless both its field id
      and its parameter name are non-empty and the mapped field has a defined value;
      then the value under the parameter name. */
  function MappingEntry(data: map<string, Value>, fields: seq<Field>): ApiFieldMapping -> Option<(string, Value)> {
    (m: ApiFieldMapping) =>
      if m.fieldId == "" || m.parameterName == "" then None
      else match SubmittedValue(data, fields, m.fieldId)
           case None => None
           case Some(kv) => Some((m.parameterName, kv.1))
  }

  /** The contribution of a mapping, spelled out as the loop of the store computes it. */
  lemma MappingEntryAt(data: map<string, Value>, fields: seq<Field>, m: ApiFieldMapping)
    ensures MappingEntry(data, fields)(m)
            == if m.fieldId == "" || m.parameterName == "" then None
               else
                 var f := Find(fields, FormHelpers.IdIs(m.fieldId));
                 if f.Some? && !Lookup(data, NameKey(f.value.name)).Undefined?
                 then Some((m.parameterName, Lookup(data, NameKey(f.value.name))))
                 else None
  {
  }

  /** The payload of useStepApiStore: a copy of the static parameters overlaid by the
      field mappings. */
  function MappedPayload(config: StepApiConfig, data: map<string, Value>, fields: seq<Field>): map<string, Value> {
    Overlay(config.staticParams.GetOr(map[]), config.fieldMappings, MappingEntry(data, fields))
  }

  /** What an id of the legacy `fieldsToSend` contributes: the field's value under the
      field's own name. */
  function NamedEntry(data: map<string, Value>, fields: seq<Field>): string -> Option<(string, Value)> {
    (id: string) => SubmittedValue(data, fields, id)
  }

  /** The payload of useStepApi: field values keyed by field name, nothing static. */
  function NamedPayload(ids: seq<string>, data: map<string, Value>, fields: seq<Field>): map<string, Value> {
    Overlay(map[], ids, NamedEntry(data, fields))
  }

  /** The store's payload holds a key exactly when the static parameters hold it or an
      applicable mapping names it; the last applicable mapping of a name decides its
      value; every other static parameter is copied unchanged. */
  lemma MappedPayloadSpec(config: StepApiConfig, data: map<string, Value>, fields: seq<Field>, k: string)
    ensures var ms, e := config.fieldMappings, MappingEntry(data, fields);
            k in MappedPayload(config, data, fields) <==>
              k in config.staticParams.GetOr(map[])
              || exists i :: 0 <= i < |ms| && e(ms[i]).Some? && ms[i].parameterName == k
  {
    var ms, e := config.fieldMappings, MappingEntry(data, fields);
    OverlayKeys(config.staticParams.GetOr(map[]), ms, e, k);
    forall i | 0 <= i < |ms| && e(ms[i]).Some? ensures e(ms[i]).value.0 == ms[i].parameterName {
      MappingEntryKey(data, fields, ms[i]);
    }
  }

  /** A mapping contributes under its own parameter name. */
  lemma MappingEntryKey(data: map<string, Value>, fields: seq<Field>, m: ApiFieldMapping)
    ensures MappingEntry(data, fields)(m).Some? ==> MappingEntry(data, fields)(m).value.0 == m.parameterName
  {
  }

  /** An applicable mapping sets its parameter to the mapped field's value unless a
      later applicable mapping names the same parameter. */
  lemma MappedPayloadLastWins(config: StepApiConfig, data: map<string, Value>, fields: seq<Field>, i: nat)
    requires i < |config.fieldMappings|
    requires MappingEntry(data, fields)(config.fieldMappings[i]).Some?
    requires forall j :: i < j < |config.fieldMappings| && MappingEntry(data, fields)(config.fieldMappings[j]).Some?
                         ==> config.fieldMappings[j].parameterName != config.fieldMappings[i].parameterName
    ensures var m := config.fieldMappings[i];
            var f := Find(fields, FormHelpers.IdIs(m.fieldId)).value;
            m.parameterName in MappedPayload(config, data, fields)
            && MappedPayload(config, data, fields)[m.parameterName] == data[NameKey(f.name)]
  {
    OverlayLastWins(config.staticParams.GetOr(map[]), config.fieldMappings, MappingEntry(data, fields), i);
  }

  /** A parameter no applicable mapping names keeps its static value, or stays absent. */
  lemma MappedPayloadUntouched(config: StepApiConfig, data: map<string, Value>, fields: seq<Field>, k: string)
    requires forall i :: 0 <= i < |config.fieldMappings| && MappingEntry(data, fields)(config.fieldMappings[i]).Some?
                         ==> config.fieldMappings[i].parameterName != k
    ensures var base := config.staticParams.GetOr(map[]);
            (k in MappedPayload(config, data, fields) <==> k in base)
            && (k in base ==> MappedPayload(config, data, fields)[k] == base[k])
  {
    OverlayUntouched(config.staticParams.GetOr(map[]), config.fieldMappings, MappingEntry(data, fields), k);
  }

  /** The legacy payload holds exactly the names of listed fields that exist and have a
      defined value, and each such name carries the submitted value. */
  lemma NamedPayloadSpec(ids: seq<string>, data: map<string, Value>, fields: seq<Field>, k: string)
    ensures k in NamedPayload(ids, data, fields) <==>
              exists i :: 0 <= i < |ids| && NamedEntry(data, fields)(ids[i]).Some? && NamedEntry(data, fields)(ids[i]).value.0 == k
    ensures k in NamedPayload(ids, data, fields) ==> NamedPayload(ids, data, fields)[k] == data[k]
  {
    OverlayKeys(map[], ids, NamedEntry(data, fields), k);
    NamedPayloadValues(ids, data, fields, k);
  }

  lemma {:induction false} NamedPayloadValues(ids: seq<string>, data: map<string, Value>, fields: seq<Field>, k: string)
    ensures k in NamedPayload(ids, data, fields) ==> k in data && NamedPayload(ids, data, fields)[k] == data[k]
    decreases |ids|
  {
    if ids != [] {
      NamedPayloadValues(ids[..|ids| - 1], data, fields, k);
    }
  }

  // ---------------------------------------------------------------------------
  // Request

  /** `{'Content-Type': 'application/json', ...apiConfig.headers}`. */
  function Headers(config: StepApiConfig): (r: map<string, string>)
    ensures r.Keys == {"Content-Type"} + config.headers.GetOr(map[]).Keys
    ensures forall k :: k in config.headers.GetOr(map[]) ==> r[k] == config.headers.GetOr(map[])[k]
    ensures "Content-Type" !in config.headers.GetOr(map[]) ==> r["Content-Type"] == "application/json"
  {
    map["Content-Type" := "application/json"] + config.headers.GetOr(map[])
  }

  /** The body forwarded to the internal gateway. */
  datatype GatewayRequest = GatewayRequest(
    stepId: string,
    data: map<string, Value>,
    endpoint: string,
    httpMethod: Option<string>,
    headers: map<string, string>)

  /** `apiConfig.method`, undefined when the stored config carries none. */
  function MethodName(m: Option<HttpMethod>): Option<string> {
    match m
    case None => None
    case Some(h) => Some(h.Name())
  }

  // ---------------------------------------------------------------------------
  // Outcome

  /** What the gateway call produced: a parsed response, or a thrown error with its
      `message`, `statusCode`, `data` and, when `data.message` is a string, that
      string. */
  datatype GatewayOutcome =
    | Responded(success: bool, message: Option<string>, data: Value)
    | Threw(errorText: Option<string>, statusCode: Option<int>, errorData: Value, dataMessage: Option<string>)

  const DefaultFailure := "Erreur lors de la vérification"
  const DefaultSuccess := "Vérification réussie !"

  /** The message set for a thrown error, by status. */
  function ThrownMessage(config: StepApiConfig, statusCode: Option<int>, dataMessage: Option<string>): string {
    if statusCode == Some(422) then OrElse(dataMessage, "Données invalides")
    else if statusCode == Some(400) then OrElse(dataMessage, "Requête invalide")
    else if statusCode.Some? && statusCode.value >= 500 then "Erreur serveur, veuillez réessayer"
    else OrElse(config.errorMessage, DefaultFailure)
  }

  /** Whether the user may proceed, and the error or success message to show. */
  datatype Verdict = Verdict(proceed: bool, error: Option<string>, success: Option<string>)

  function Interpret(config: StepApiConfig, outcome: GatewayOutcome): Verdict {
    var failed := Verdict(!config.validationRequired.GetOr(false), None, None);
    match outcome
    case Responded(ok, message, _) =>
      if ok then Verdict(true, None, Some(OrElse(config.successMessage, DefaultSuccess)))
      else failed.(error := Some(OrElse(message, OrElse(config.errorMessage, DefaultFailure))))
    case Threw(_, status, _, dataMessage) =>
      failed.(error := Some(ThrownMessage(config, status, dataMessage)))
  }

  /** Exactly one of the two messages is set; the user is held back only when the
      verification did not succeed and the config makes it required. */
  lemma InterpretShape(config: StepApiConfig, outcome: GatewayOutcome)
    ensures var v := Interpret(config, outcome);
            (v.error.Some? <==> v.success.None?)
            && (v.success.Some? <==> outcome.Responded? && outcome.success)
            && (!v.proceed <==> v.error.Some? && config.validationRequired == Some(true))
  {
  }

  /** A successful response: proceed, with the configured success message or the
      default one. */
  lemma SuccessResponse(config: StepApiConfig, message: Option<string>, data: Value)
    ensures Interpret(config, Responded(true, message, data))
            == Verdict(true, None, Some(if config.successMessage.Some? && config.successMessage.value != ""
                                        then config.successMessage.value else "Vérification réussie !"))
  {
  }

  /** A failed response: the response's message, else the configured error message,
      else the default, and proceed unless the verification is required. */
  lemma FailureResponse(config: StepApiConfig, message: Option<string>, data: Value)
    ensures var v := Interpret(config, Responded(false, message, data));
            v.proceed == (config.validationRequired != Some(true))
            && v.error.Some? && v.success.None?
            && (message.Some? && message.value != "" ==> v.error.value == message.value)
            && ((message.None? || message.value == "") && config.errorMessage.Some? && config.errorMessage.value != ""
                ==> v.error.value == config.errorMessage.value)
            && ((message.None? || message.value == "") && (config.errorMessage.None? || config.errorMessage.value == "")
                ==> v.error.value == "Erreur lors de la vérification")
  {
  }

  /** A thrown error: 422 and 400 show the error data's message or their own default,
      any status of 500 or more a fixed server message, anything else the configured
      error message or the default; proceed unless the verification is required. */
  lemma ThrownError(config: StepApiConfig, text: Option<string>, status: Option<int>, data: Value, dataMessage: Option<string>)
    ensures var v := Interpret(config, Threw(text, status, data, dataMessage));
            v.proceed == (config.validationRequired != Some(true)) && v.success.None? && v.error.Some?
            && (status == Some(422) ==> v.error.value == OrElse(dataMessage, "Données invalides"))
            && (status == Some(400) ==> v.error.value == OrElse(dataMessage, "Requête invalide"))
            && (status.Some? && status.value >= 500 ==> v.error.value == "Erreur serveur, veuillez réessayer")
            && (status.None? || (status.value != 422 && status.value != 400 && status.value < 500)
                ==> v.error.value == OrElse(config.errorMessage, "Erreur lors de la vérification"))
  {
  }
}
