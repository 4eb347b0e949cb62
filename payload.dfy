/** The Payload model of src/models/payload.ts: a null/undefined guard around an arbitrary value. */
module Payloads {
  import opened Wrappers
  import opened Errors

  /** A value a request body can carry, with `Undefined` for a missing property. */
  datatype Value =
    | Undefined
    | Null
    | Bool(b: bool)
    | Number(n: real)
    | Str(s: string)
    | Array(items: seq<Value>)
    | Object(entries: seq<(string, Value)>)

  /** JavaScript falsiness of a value. */
  predicate Falsy(v: Value) {
    v.Undefined? || v.Null? || v == Bool(false) || v == Number(0.0) || v == Str("")
  }

  datatype Payload = Payload(payload: Value)

  /** `validate`: throws exactly for undefined and null. */
  function Validate(payload: Value): (r: Option<Error>)
    ensures r.Some? <==> payload == Undefined || payload == Null
    ensures r.Some? ==> r.value == ValidationError(PayloadRequiredMessage)
  {
    if payload.Undefined? || payload.Null? then Some(ValidationError(PayloadRequiredMessage)) else None
  }

  /** The Payload constructor: validate, then store the value unchanged. */
  function NewPayload(payload: Value): (r: Result<Payload, Error>)
    ensures r.Ok? <==> payload != Undefined && payload != Null
    ensures r.Ok? ==> r.value.payload == payload
    ensures r.Err? ==> r.error.message == PayloadRequiredMessage && IsValidationError(r.error)
  {
    match Validate(payload)
    case Some(e) => Err(e)
    case None => Ok(Payload(payload))
  }

  /** Falsy values other than undefined and null, and empty containers, are accepted unchanged. */
  lemma FalsyAndEmptyPayloadsAccepted(v: Value)
    requires Falsy(v) || v == Array([]) || v == Object([])
    requires v != Undefined && v != Null
    ensures NewPayload(v) == Ok(Payload(v))
  {
  }
}
