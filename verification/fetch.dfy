/** What a `fetch` call can come back with, and the error-message rules the
    components apply to it. The network, HTTP and JSON decoding themselves are not
    modelled: a response is given as its `ok` flag, its status, its raw text and the
    result of `response.json()`. */
module Fetch {
  import opened Options

  /** A value caught by `catch (error)`: an `Error` object with its message, or anything else. */
  datatype Thrown = ErrorObject(message: string) | NonError

  /** The result of `await response.json()`: the decoded body, whose `message`
      field may be missing, or a `SyntaxError` with its message. */
  datatype Json<T> = Parsed(data: T, message: Option<string>) | Malformed(syntaxError: string)

  datatype Response<T> = Response(ok: bool, status: nat, text: string, json: Json<T>)

  /** `await fetch(...)`: a response, or a rejection (no response at all). */
  datatype Fetched<T> = Received(response: Response<T>) | Rejected(reason: Thrown)

  /** How a request ended, as the component records it. */
  datatype Settled<T> = Succeeded(data: T) | Failed(message: string)

  /** The catch-all message of the components whose `catch` falls back to a fixed text. */
  const GenericError: string := "An error occurred"

  /** JavaScript truthiness of an optional string: present and not empty. */
  predicate Truthy(s: Option<string>) {
    s.Some? && s.value != ""
  }

  /** `data.message || fallback`. */
  function MessageOr(message: Option<string>, fallback: string): (m: string)
    ensures Truthy(message) ==> m == message.value
    ensures !Truthy(message) ==> m == fallback
  {
    match message
    case Some(text) => if text != "" then text else fallback
    case None => fallback
  }

  /** `error instanceof Error ? error.message : fallback`. */
  function Caught(t: Thrown, fallback: string): string {
    match t
    case ErrorObject(message) => message
    case NonError => fallback
  }

  /** The shape shared by the listing search, the cheaper-locations card and the
      signup form: read the JSON body; on `ok` keep the data, otherwise throw
      `new Error(data.message || fallback)`; the `catch` turns any thrown `Error`
      into its message and anything else into `"An error occurred"`. */
  function SettleJson<T>(f: Fetched<T>, fallback: string): (r: Settled<T>)
    ensures r.Succeeded? <==> f.Received? && f.response.ok && f.response.json.Parsed?
    ensures r.Succeeded? ==> r.data == f.response.json.data
    ensures f.Received? && !f.response.ok && f.response.json.Parsed? ==>
              r == Failed(MessageOr(f.response.json.message, fallback))
    ensures f.Received? && f.response.json.Malformed? ==> r == Failed(f.response.json.syntaxError)
    ensures f.Rejected? ==> r == Failed(Caught(f.reason, GenericError))
  {
    match f
    case Rejected(reason) => Failed(Caught(reason, GenericError))
    case Received(response) =>
      match response.json
      case Malformed(e) => Failed(e)
      case Parsed(data, message) =>
        if response.ok then Succeeded(data) else Failed(MessageOr(message, fallback))
  }

  /** A server-side failure is never silent: with a non-empty fallback, a non-ok
      response whose body parsed always settles on a non-empty message, which the
      components' `if (error)` tests then show. */
  lemma NonOkFailsVisibly<T>(f: Fetched<T>, fallback: string)
    requires f.Received? && !f.response.ok && f.response.json.Parsed?
    requires fallback != ""
    ensures SettleJson(f, fallback).Failed?
    ensures SettleJson(f, fallback).message != ""
  {
  }
}
