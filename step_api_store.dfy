/** pages/form/composables/useStepApiStore.ts: the shared verification state (one
    instance for the whole application) and its validateStepWithApi, which also keeps
    a history of the attempts, most recent first and at most 10 long. */
module StepApiStore {
  import opened Common
  import opened Strings
  import opened JsValues
  import opened FormModel
  import opened StepApiProtocol
  import FormHelpers

  /** What the history records as the response of an attempt. */
  datatype RecordedResponse =
    | ResponseData(data: Value)                                           // `response.data`, when truthy
    | WholeResponse(success: bool, message: Option<string>, data: Value)  // otherwise the response itself
    | ErrorDetails(error: Option<string>, statusCode: Option<int>, data: Value)

  datatype HistoryEntry = HistoryEntry(
    stepId: string,
    timestamp: string,
    endpoint: string,
    httpMethod: string,
    request: map<string, Value>,
    response: RecordedResponse,
    success: bool)

  const HistoryLimit := 10

  /** The history entry of one attempt; `now` is `Date.now()` and `timestamp` the ISO
      form of the current date. */
  function Entry(config: StepApiConfig, payload: map<string, Value>, outcome: GatewayOutcome, now: nat, timestamp: string): (r: HistoryEntry)
    ensures r.endpoint == config.endpoint && r.request == payload
    ensures r.httpMethod == (if config.httpMethod == Some(HttpGet) then "GET" else "POST")
    ensures r.success <==> outcome.Responded? && outcome.success
  {
    var m := MethodName(config.httpMethod).GetOr("POST");
    match outcome
    case Responded(success, message, data) =>
      HistoryEntry("step-" + NatToString(now), timestamp, config.endpoint, m, payload,
                   if Truthy(data) then ResponseData(data) else WholeResponse(success, message, data), success)
    case Threw(text, status, data, _) =>
      HistoryEntry("step-error-" + NatToString(now), timestamp, config.endpoint, m, payload,
                   ErrorDetails(text, status, data), false)
  }

  /** `unshift(entry)` followed by `slice(0, 10)` when the history grew past 10. */
  function Record(history: seq<HistoryEntry>, e: HistoryEntry): (r: seq<HistoryEntry>)
    ensures |r| == if |history| + 1 > HistoryLimit then HistoryLimit else |history| + 1
    ensures r[0] == e && r[1..] == history[..|r| - 1]
  {
    var h := [e] + history;
    if |h| > HistoryLimit then h[..HistoryLimit] else h
  }

  function Reversed<T>(s: seq<T>): (r: seq<T>)
    ensures |r| == |s| && forall i :: 0 <= i < |s| ==> r[i] == s[|s| - 1 - i]
  {
    seq(|s|, i requires 0 <= i < |s| => s[|s| - 1 - i])
  }

  /** The history after recording `entries` in turn. */
  function RecordAll(history: seq<HistoryEntry>, entries: seq<HistoryEntry>): seq<HistoryEntry>
    decreases |entries|
  {
    if entries == [] then history
    else Record(RecordAll(history, entries[..|entries| - 1]), entries[|entries| - 1])
  }

  function Min(a: int, b: int): int { if a < b then a else b }

  /** Recording a series of attempts keeps the 10 most recent entries, newest first. */
  lemma {:induction false} RecordAllKeepsMostRecent(history: seq<HistoryEntry>, entries: seq<HistoryEntry>)
    requires |history| <= HistoryLimit
    ensures RecordAll(history, entries)
            == (Reversed(entries) + history)[..Min(|entries| + |history|, HistoryLimit)]
    decreases |entries|
  {
    if entries == [] {
      assert (Reversed(entries) + history)[..|history|] == history;
    } else {
      var init, e := entries[..|entries| - 1], entries[|entries| - 1];
      RecordAllKeepsMostRecent(history, init);
      var x := Reversed(init) + history;
      assert Reversed(entries) + history == [e] + x by {
        assert Reversed(entries) == [e] + Reversed(init);
      }
      RecordOntoPrefix(x, e);
    }
  }

  /** Recording onto the first (at most 10) entries of `x` gives the first entries of
      `[e] + x`. */
  lemma RecordOntoPrefix(x: seq<HistoryEntry>, e: HistoryEntry)
    ensures Record(x[..Min(|x|, HistoryLimit)], e) == ([e] + x)[..Min(|x| + 1, HistoryLimit)]
  {
    var prev := x[..Min(|x|, HistoryLimit)];
    var r := Record(prev, e);
    var want := ([e] + x)[..Min(|x| + 1, HistoryLimit)];
    assert |r| == |want|;
    forall i | 0 <= i < |r| ensures r[i] == want[i] {
      if i > 0 {
        assert r[i] == r[1..][i - 1] == prev[i - 1];
      }
    }
  }

  /** The loop that fills `dataToSend`. */
  method AssemblePayload(config: StepApiConfig, data: map<string, Value>, fields: seq<Field>) returns (payload: map<string, Value>)
    ensures payload == MappedPayload(config, data, fields)
  {
    payload := map[];
    if config.staticParams.Some? {
      payload := config.staticParams.value;
    }
    ghost var base := payload;
    assert base == config.staticParams.GetOr(map[]);
    var ms := config.fieldMappings;
    for i := 0 to |ms|
      invariant payload == Overlay(base, ms[..i], MappingEntry(data, fields))
    {
      var m := ms[i];
      assert ms[..i + 1] == ms[..i] + [m];
      OverlaySnoc(base, ms[..i], m, MappingEntry(data, fields));
      MappingEntryAt(data, fields, m);
      if m.fieldId != "" && m.parameterName != "" {
        var field := Find(fields, FormHelpers.IdIs(m.fieldId));
        if field.Some? && !Lookup(data, NameKey(field.value.name)).Undefined? {
          payload := payload[m.parameterName := Lookup(data, NameKey(field.value.name))];
        }
      }
    }
    assert ms[..|ms|] == ms;
  }

  /** The shared state of the store. */
  class Store {
    var isValidating: bool
    var validationError: Option<string>
    var validationSuccess: Option<string>
    var validationResponses: seq<HistoryEntry>

    ghost predicate Valid()
      reads this
    {
      |validationResponses| <= HistoryLimit
    }

    constructor()
      ensures !isValidating && validationError == None && validationSuccess == None && validationResponses == []
      ensures Valid()
    {
      isValidating := false;
      validationError := None;
      validationSuccess := None;
      validationResponses := [];
    }

    /** validateStepWithApi. `outcome` is what the gateway call produced; `request` is
        the body sent to it, none when the verification is skipped. */
    method ValidateStepWithApi(config: StepApiConfig, formData: map<string, Value>, allFields: seq<Field>,
                               outcome: GatewayOutcome, now: nat, timestamp: string)
      returns (proceed: bool, request: Option<GatewayRequest>)
      modifies this
      ensures !config.enabled || config.endpoint == "" ==>
                proceed && request.None?
                && isValidating == old(isValidating) && validationError == old(validationError)
                && validationSuccess == old(validationSuccess) && validationResponses == old(validationResponses)
      ensures config.enabled && config.endpoint != "" ==>
                var payload := MappedPayload(config, formData, allFields);
                var v := Interpret(config, outcome);
                request == Some(GatewayRequest("step-validation", payload, config.endpoint,
                                               MethodName(config.httpMethod), Headers(config)))
                && proceed == v.proceed && validationError == v.error && validationSuccess == v.success
                && !isValidating
                && validationResponses == Record(old(validationResponses), Entry(config, payload, outcome, now, timestamp))
      ensures old(Valid()) ==> Valid()
    {
      if !config.enabled || config.endpoint == "" {
        return true, None;
      }
      isValidating := true;
      validationError := None;
      validationSuccess := None;

      var dataToSend := AssemblePayload(config, formData, allFields);
      var headers := Headers(config);
      request := Some(GatewayRequest("step-validation", dataToSend, config.endpoint, MethodName(config.httpMethod), headers));

      var entry := Entry(config, dataToSend, outcome, now, timestamp);
      validationResponses := [entry] + validationResponses;
      if |validationResponses| > HistoryLimit {
        validationResponses := validationResponses[..HistoryLimit];
      }
      match outcome {
        case Responded(success, message, _) =>
          if success {
            validationSuccess := Some(OrElse(config.successMessage, DefaultSuccess));
            proceed := true;
          } else {
            validationError := Some(OrElse(message, OrElse(config.errorMessage, DefaultFailure)));
            proceed := !config.validationRequired.GetOr(false);
          }
        case Threw(_, status, _, dataMessage) =>
          var errorMessage := OrElse(config.errorMessage, DefaultFailure);
          if status == Some(422) {
            errorMessage := OrElse(dataMessage, "Données invalides");
          } else if status == Some(400) {
            errorMessage := OrElse(dataMessage, "Requête invalide");
          } else if status.Some? && status.value >= 500 {
            errorMessage := "Erreur serveur, veuillez réessayer";
          }
          validationError := Some(errorMessage);
          proceed := !config.validationRequired.GetOr(false);
      }
      isValidating := false;
    }

    /** clearValidationState. */
    method ClearValidationState()
      modifies this
      ensures validationError == None && validationSuccess == None
      ensures isValidating == old(isValidating) && validationResponses == old(validationResponses)
    {
      validationError := None;
      validationSuccess := None;
    }

    /** clearValidationResponses. */
    method ClearValidationResponses()
      modifies this
      ensures validationResponses == []
      ensures isValidating == old(isValidating) && validationError == old(validationError)
      ensures validationSuccess == old(validationSuccess)
      ensures Valid()
    {
      validationResponses := [];
    }
  }
}
