/** What crosses a network boundary: values a `fetch` call, a `response.json()`
    call or a handler can throw, and the reply a `fetch` call produces. Real I/O is
    not modelled; a reply is an input the caller supplies. */
module Http {
  import opened Wrappers
  import opened Text
  /** The JavaScript error classes the handlers tell apart with `instanceof`. */
  datatype ErrorKind = TypeErrorKind | SyntaxErrorKind | OtherErrorKind

  /** A thrown value: a non-OK `Response` that client code rethrows, an `Error`
      (with its class, its `name` and its `message`), or any other value. */
  datatype Thrown =
    | ThrownResponse(status: int)
    | ThrownError(kind: ErrorKind, name: string, message: string)
    | ThrownValue

  /** The outcome of `response.json()`: the decoded body, or a `SyntaxError`. */
  datatype Json<B> = Parsed(value: B) | Malformed(message: string)

  /** The outcome of `await fetch(...)`: a response with a status and a body, or
      a rejection (a `TypeError` such as "Failed to fetch", an `AbortError`, ...). */
  datatype Reply<B> = Answered(status: int, body: Json<B>) | FetchThrew(failure: Thrown)

  /** `response.ok` */
  predicate IsOk(status: int) {
    200 <= status <= 299
  }

  /** What `response.json()` throws on a body that is not JSON. */
  function SyntaxError(message: string): Thrown {
    ThrownError(SyntaxErrorKind, "SyntaxError", message)
  }

  /** What reading `.id` of an `undefined` array element throws (V8 wording). */
  const UndefinedIdMessage := "Cannot read properties of undefined (reading 'id')"

  function UndefinedIdError(): Thrown {
    ThrownError(TypeErrorKind, "TypeError", UndefinedIdMessage)
  }

  /** The test both route handlers apply to what they catch:
      `error instanceof TypeError && error.message.includes("fetch")`. */
  predicate IsFetchFailure(e: Thrown) {
    e.ThrownError? && e.kind == TypeErrorKind && Contains(e.message, "fetch")
  }

  /** `fetch`, then `if (!response.ok) throw response`, then `response.json()`:
      the decoded body, or the value the sequence throws. */
  function Settle<B>(reply: Reply<B>): (r: Result<B, Thrown>)
    ensures r.Success? <==> reply.Answered? && IsOk(reply.status) && reply.body.Parsed?
    ensures r.Success? ==> r.value == reply.body.value
    ensures reply.Answered? && !IsOk(reply.status) ==> r == Failure(ThrownResponse(reply.status))
  {
    match reply
    case FetchThrew(e) => Failure(e)
    case Answered(status, body) =>
      if !IsOk(status) then Failure(ThrownResponse(status))
      else
        match body
        case Malformed(message) => Failure(SyntaxError(message))
        case Parsed(value) => Success(value)
  }
}
