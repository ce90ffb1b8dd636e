/** The Response Normalizer of `request`: how the outcome of the one HTTP call becomes
    a `{data, error}` result, in the legacy (`useAxios` true) and the modern mode. */
module Normalizer {
  import opened JsValues

  const InvalidResponseMessage := "incorrect response data from GraphQL server"
  const InvalidResponseCode := "invalid-response"
  const UnknownCode := "unknown"
  const RequestFailedMessage := "Unable to get do GraphQL request"

  /** What `axios.post` produced: the decoded response body, or a thrown value. */
  datatype Outcome = Received(body: JsValue) | Failed(thrown: Exception)

  /** A thrown value, seen through the properties the client reads from it and
      whether it is an `Error` instance. */
  datatype Exception = Exception(isError: bool, code: JsValue, status: JsValue, message: JsValue)

  /** The `error` field of a result. */
  datatype ErrorValue =
    | NoError                                                   // `null`
    | ServerErrors(errors: JsValue)                             // `body.errors`, verbatim
    | NewError(msg: string)                                     // `new Error(message)`
    | Rethrown(exception: Exception)                            // the caught `Error` itself
    | ErrorPayload(error: JsValue, status: JsValue, message: JsValue) // `{error, status, message}`

  datatype GraphqlResult = GraphqlResult(data: JsValue, error: ErrorValue)

  /** The `error` field is JavaScript `null`. */
  predicate ErrorIsNull(e: ErrorValue) {
    e.NoError? || (e.ServerErrors? && e.errors == Null)
  }

  /** Destructuring `const { data } = responseData` throws a TypeError when the body is
      `undefined` or `null`; the message is the one V8 gives. */
  function DestructureError(body: JsValue): (e: Exception)
    requires Nullish(body)
    ensures e.isError && e.code == Undefined && e.status == Undefined && e.message.Str?
  {
    Exception(true, Undefined, Undefined,
              Str("Cannot destructure property 'data' of 'responseData' as it is "
                  + (if body.Null? then "null." else "undefined.")))
  }

  /** The `catch` branch of `request`. */
  function Caught(useAxios: bool, e: Exception): (r: GraphqlResult)
    ensures r.data == Null && !ErrorIsNull(r.error)
    ensures useAxios && e.isError ==> r.error == Rethrown(e)
    ensures useAxios && !e.isError ==> r.error == NewError(RequestFailedMessage)
    ensures !useAxios ==> r.error.ErrorPayload? && r.error.message == e.message
    ensures !useAxios ==> Truthy(r.error.error) && (Truthy(e.code) ==> r.error.error == e.code)
                          && (!Truthy(e.code) ==> r.error.error == Str(UnknownCode))
    ensures !useAxios ==> (Truthy(e.status) ==> r.error.status == e.status)
                          && (!Truthy(e.status) ==> r.error.status == Num(0.0))
  {
    if useAxios then
      if e.isError then GraphqlResult(Null, Rethrown(e))
      else GraphqlResult(Null, NewError(RequestFailedMessage))
    else
      GraphqlResult(Null, ErrorPayload(Or(e.code, Str(UnknownCode)), Or(e.status, Num(0.0)), e.message))
  }

  /** The `try` body after the call returned, and the `catch` branch for the exceptions
      thrown inside it. Exactly one of `data` and `error` is `null`. */
  function Normalize(useAxios: bool, outcome: Outcome): (r: GraphqlResult)
    ensures (r.data == Null) <==> !ErrorIsNull(r.error)
    ensures r.data != Null ==> IsPlainObject(r.data) && r.error == NoError
  {
    match outcome
    case Failed(e) => Caught(useAxios, e)
    case Received(body) =>
      if Nullish(body) then Caught(useAxios, DestructureError(body))
      else
        var data := Property(body, "data");
        var errors := Property(body, "errors");
        if Truthy(errors) then GraphqlResult(Null, ServerErrors(errors))
        else if !IsPlainObject(data) then
          if useAxios then GraphqlResult(Null, NewError(InvalidResponseMessage))
          else GraphqlResult(Null, ErrorPayload(Str(InvalidResponseCode), Num(0.0), Str(InvalidResponseMessage)))
        else GraphqlResult(data, NoError)
  }

  /** GraphQL-level errors take precedence over data: a truthy `errors` gives `data: null`
      and the errors verbatim, whatever `data` holds and in either mode. */
  lemma ServerErrorsWin(useAxios: bool, props: map<string, JsValue>)
    requires "errors" in props && Truthy(props["errors"])
    ensures Normalize(useAxios, Received(Obj(props))) == GraphqlResult(Null, ServerErrors(props["errors"]))
  {
  }

  /** A body whose non-errors `data` is not a plain object is rejected: a plain `Error`
      in legacy mode, an `invalid-response` payload with status 0 in modern mode. */
  lemma InvalidDataRejected(useAxios: bool, body: JsValue)
    requires !Nullish(body)
    requires !Truthy(Property(body, "errors")) && !IsPlainObject(Property(body, "data"))
    ensures useAxios ==> Normalize(useAxios, Received(body)) == GraphqlResult(Null, NewError(InvalidResponseMessage))
    ensures !useAxios ==> Normalize(useAxios, Received(body))
                          == GraphqlResult(Null, ErrorPayload(Str(InvalidResponseCode), Num(0.0), Str(InvalidResponseMessage)))
  {
  }

  /** An error-free body with object `data` yields that data and a `null` error. */
  lemma DataReturned(useAxios: bool, props: map<string, JsValue>)
    requires !("errors" in props && Truthy(props["errors"]))
    requires "data" in props && IsPlainObject(props["data"])
    ensures Normalize(useAxios, Received(Obj(props))) == GraphqlResult(props["data"], NoError)
  {
  }

  /** A failed call in legacy mode: the exception itself if it is an `Error`, a generic
      `Error` otherwise. */
  lemma LegacyTransportFailure(e: Exception)
    ensures e.isError ==> Normalize(true, Failed(e)) == GraphqlResult(Null, Rethrown(e))
    ensures !e.isError ==> Normalize(true, Failed(e)) == GraphqlResult(Null, NewError(RequestFailedMessage))
  {
  }

  /** A failed call in modern mode: `{error: code || 'unknown', status: status || 0, message}`. */
  lemma ModernTransportFailure(e: Exception)
    ensures Normalize(false, Failed(e))
            == GraphqlResult(Null, ErrorPayload(Or(e.code, Str(UnknownCode)), Or(e.status, Num(0.0)), e.message))
  {
  }

  /** A `null` or `undefined` body does not reach the shape check: the destructuring
      throws, and the TypeError is handled like a failed call. */
  lemma NullishBodyIsCaught(useAxios: bool, body: JsValue)
    requires Nullish(body)
    ensures Normalize(useAxios, Received(body)) == Normalize(useAxios, Failed(DestructureError(body)))
    ensures useAxios ==> Normalize(useAxios, Received(body)).error == Rethrown(DestructureError(body))
    ensures !useAxios ==> Normalize(useAxios, Received(body)).error.ErrorPayload?
                          && Normalize(useAxios, Received(body)).error.error == Str(UnknownCode)
  {
  }

  /** The mode changes only the shape of `error`: the same outcome gives the same
      `data`, and an error in one mode is an error in the other. */
  lemma ModeChangesOnlyErrorShape(outcome: Outcome)
    ensures Normalize(true, outcome).data == Normalize(false, outcome).data
    ensures ErrorIsNull(Normalize(true, outcome).error) <==> ErrorIsNull(Normalize(false, outcome).error)
  {
  }

  /** In modern mode the error is never an exception object: it is either the server's
      errors or a `{error, status, message}` payload with a non-empty code. */
  lemma ModernErrorsAreStructured(outcome: Outcome)
    ensures var e := Normalize(false, outcome).error;
            e.NoError? || e.ServerErrors? || (e.ErrorPayload? && Truthy(e.error))
  {
  }

  /** In legacy mode every non-server error is an `Error` instance: a new one, or a
      caught exception that was already an `Error`. */
  lemma LegacyErrorsAreErrors(outcome: Outcome)
    ensures var e := Normalize(true, outcome).error;
            e.NoError? || e.ServerErrors? || e.NewError? || (e.Rethrown? && e.exception.isError)
  {
  }

  /** The error taxonomy of a call, defined from the outcome alone. */
  datatype Kind = TransportFailure | ApplicationErrors | InvalidResponse | Success

  function Classify(outcome: Outcome): (k: Kind) {
    match outcome
    case Failed(_) => TransportFailure
    case Received(body) =>
      if Nullish(body) then TransportFailure
      else if Truthy(Property(body, "errors")) then ApplicationErrors
      else if !IsPlainObject(Property(body, "data")) then InvalidResponse
      else Success
  }

  /** The normalizer agrees with the taxonomy: only a successful call has a `null` error,
      and each kind of failure has its own error shape in each mode. */
  lemma NormalizeFollowsKind(useAxios: bool, outcome: Outcome)
    ensures ErrorIsNull(Normalize(useAxios, outcome).error) <==> Classify(outcome) == Success
    ensures Classify(outcome) == ApplicationErrors <==> Normalize(useAxios, outcome).error.ServerErrors?
    ensures Classify(outcome) == InvalidResponse ==>
              Normalize(useAxios, outcome).error
              == if useAxios then NewError(InvalidResponseMessage)
                 else ErrorPayload(Str(InvalidResponseCode), Num(0.0), Str(InvalidResponseMessage))
    ensures Classify(outcome) == TransportFailure && !useAxios ==> Normalize(useAxios, outcome).error.ErrorPayload?
  {
  }
}
