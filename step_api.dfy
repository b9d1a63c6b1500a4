/** pages/form/composables/useStepApi.ts: the older, per-instance variant of the step
    verification. Its payload is keyed by field names from the list `fieldsToSend`,
    it always forwards POST, and it keeps no history.

    The list is read as `apiConfig.fieldsToSend`, a property the current StepApiConfig
    type no longer declares; it is therefore a separate, optional argument here. When
    it is absent, iterating over it throws a TypeError inside the `try`, which the
    `catch` handles as an error without a status code, before anything is sent. */
module StepApi {
  import opened Common
  import opened JsValues
  import opened FormModel
  import opened StepApiProtocol
  import FormHelpers

  /** The TypeError of `for (… of undefined)`, as the `catch` sees it. */
  const NotIterable := Threw(None, None, Undefined, None)

  /** The loop over `fieldsToSend`. */
  method AssembleNamedPayload(ids: seq<string>, data: map<string, Value>, fields: seq<Field>) returns (payload: map<string, Value>)
    ensures payload == NamedPayload(ids, data, fields)
  {
    payload := map[];
    for i := 0 to |ids|
      invariant payload == Overlay(map[], ids[..i], NamedEntry(data, fields))
    {
      var id := ids[i];
      assert ids[..i + 1] == ids[..i] + [id];
      OverlaySnoc(map[], ids[..i], id, NamedEntry(data, fields));
      var field := Find(fields, FormHelpers.IdIs(id));
      if field.Some? && !Lookup(data, NameKey(field.value.name)).Undefined? {
        payload := payload[NameKey(field.value.name) := Lookup(data, NameKey(field.value.name))];
      }
    }
    assert ids[..|ids|] == ids;
  }

  class LegacyStepApi {
    var isValidating: bool
    var validationError: Option<string>
    var validationSuccess: Option<string>

    constructor()
      ensures !isValidating && validationError == None && validationSuccess == None
    {
      isValidating := false;
      validationError := None;
      validationSuccess := None;
    }

    /** validateStepWithApi of useStepApi. */
    method ValidateStepWithApi(config: StepApiConfig, fieldsToSend: Option<seq<string>>, formData: map<string, Value>,
                               allFields: seq<Field>, outcome: GatewayOutcome)
      returns (proceed: bool, request: Option<GatewayRequest>)
      modifies this
      ensures !config.enabled || config.endpoint == "" ==>
                proceed && request.None? && isValidating == old(isValidating)
                && validationError == old(validationError) && validationSuccess == old(validationSuccess)
      ensures config.enabled && config.endpoint != "" ==>
                var v := Interpret(config, if fieldsToSend.None? then NotIterable else outcome);
                proceed == v.proceed && validationError == v.error && validationSuccess == v.success
                && !isValidating
                && (fieldsToSend.None? ==> request.None?)
                && (fieldsToSend.Some? ==>
                      request == Some(GatewayRequest("step-validation", NamedPayload(fieldsToSend.value, formData, allFields),
                                                     config.endpoint, Some("POST"), Headers(config))))
      // the gateway is asked for POST whatever config.httpMethod says
      ensures request.Some? ==> request.value.httpMethod == Some("POST")
    {
      if !config.enabled || config.endpoint == "" {
        return true, None;
      }
      isValidating := true;
      validationError := None;
      validationSuccess := None;

      var result := NotIterable;
      request := None;
      if fieldsToSend.Some? {
        var dataToSend := AssembleNamedPayload(fieldsToSend.value, formData, allFields);
        request := Some(GatewayRequest("step-validation", dataToSend, config.endpoint, Some("POST"), Headers(config)));
        result := outcome;
      }
      match result {
        case Responded(success, message, _) =>
          if success {
            validationSuccess := Some(OrElse(config.successMessage, DefaultSuccess));
            proceed := true;
          } else {
            validationError := Some(OrElse(message, OrElse(config.errorMessage, DefaultFailure)));
            proceed := !config.validationRequired.GetOr(false);
          }
        case Threw(_, status, _, dataMessage) =>
          validationError := Some(ThrownMessage(config, status, dataMessage));
          proceed := !config.validationRequired.GetOr(false);
      }
      isValidating := false;
    }

    /** clearValidationState. */
    method ClearValidationState()
      modifies this
      ensures validationError == None && validationSuccess == None && isValidating == old(isValidating)
    {
      validationError := None;
      validationSuccess := None;
    }
  }
}
