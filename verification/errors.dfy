/**
 * What the services throw and how the pages turn it into text. axios
 * rejects with an error object of three kinds; the services rethrow either
 * the server's response body, an `Error`, or a bare message string; the
 * pages read `err.message`.
 */
module Errors {
  import opened Wrappers

  /** The JSON body of an error response; the pages read only its `message` property. */
  datatype ServerData = ServerData(message: Option<string>)

  /** How an axios request fails: with a response, with no response, or before it was sent. */
  datatype AxiosError =
    | ResponseError(data: ServerData, message: string)
    | NoResponse(message: string)
    | SetupError(message: string)

  /** A value thrown to a handler: an `Error` object, a server body, or a bare string. */
  datatype Thrown =
    | ErrorObject(message: string)
    | Body(data: ServerData)
    | Bare(text: string)

  /** `err.message`; a bare string has no such property. */
  function MessageOf(t: Thrown): Option<string> {
    match t
    case ErrorObject(m) => Some(m)
    case Body(d) => d.message
    case Bare(_) => None
  }

  /** `err.message || fallback`: the message when it is a non-empty string, the fallback otherwise. */
  function MessageOr(t: Thrown, fallback: string): (r: string)
    ensures r == fallback || MessageOf(t) == Some(r)
    ensures r == fallback <==> MessageOf(t).None? || MessageOf(t).value == "" || MessageOf(t).value == fallback
    ensures fallback != "" ==> r != ""
  {
    match MessageOf(t)
    case Some(m) => if m != "" then m else fallback
    case None => fallback
  }

  /** `${err.message}` inside a template literal, where a missing message prints as "undefined". */
  function MessageText(t: Thrown): (r: string)
    ensures MessageOf(t).Some? ==> r == MessageOf(t).value
    ensures MessageOf(t).None? ==> r == "undefined"
  {
    match MessageOf(t)
    case Some(m) => m
    case None => "undefined"
  }

  /** `throw error.response ? error.response.data : error.message`, shared by the services and login. */
  function ServiceFailure(e: AxiosError): (t: Thrown)
    ensures e.ResponseError? <==> t.Body?
    ensures e.ResponseError? ==> t == Body(e.data)
    ensures !e.ResponseError? ==> t == Bare(e.message)
  {
    if e.ResponseError? then Body(e.data) else Bare(e.message)
  }

  /** A failure without a server response reaches the page as a bare string, so the page shows its fallback. */
  lemma BareFailureShowsFallback(e: AxiosError, fallback: string)
    requires !e.ResponseError?
    ensures MessageOr(ServiceFailure(e), fallback) == fallback
    ensures MessageText(ServiceFailure(e)) == "undefined"
  {
  }
}
