/**
 * The response interceptor of the client's HTTP instance
 * (client/src/api/serverapi.ts): a success passes through; a failure shows a
 * toast with a message chosen from the error and is rejected again unchanged.
 */
module ServerApi {
  import opened Wrappers

  /** `error.response`: the status text and `data?.message`. */
  datatype ServerResponse = ServerResponse(statusText: string, dataMessage: Option<string>)

  /** An `AxiosError`: whether a response arrived, whether a request went out, and its own message. */
  datatype HttpError = HttpError(response: Option<ServerResponse>, request: bool, message: string)

  /** What a call settles to before the interceptor runs. */
  datatype Settled<T> = Fulfilled(value: T) | Failed(error: HttpError)

  /** The message of the error toast. */
  function ErrorMessage(e: HttpError): (m: string)
    ensures e.response.Some? && Present(e.response.value.dataMessage) ==> m == e.response.value.dataMessage.value
    ensures e.response.Some? && !Present(e.response.value.dataMessage) ==> m == e.response.value.statusText
    ensures e.response.None? && e.request ==> m == "No response from server"
    ensures e.response.None? && !e.request ==> m == e.message
  {
    match e.response
    case Some(resp) => if Present(resp.dataMessage) then resp.dataMessage.value else resp.statusText
    case None => if e.request then "No response from server" else e.message
  }

  /** The interceptor: the settled call as the caller sees it, and the toast shown, if any. */
  function Intercept<T>(s: Settled<T>): (r: (Settled<T>, Option<string>))
    ensures r.0 == s
    ensures r.1.Some? <==> s.Failed?
    ensures s.Failed? ==> r.1.value == ErrorMessage(s.error)
  {
    match s
    case Fulfilled(_) => (s, None)
    case Failed(e) => (s, Some(ErrorMessage(e)))
  }

  /** A server message wins over the status text, and an empty one does not. */
  lemma ServerMessageWins(statusText: string, msg: string, request: bool, own: string)
    ensures msg != "" ==> ErrorMessage(HttpError(Some(ServerResponse(statusText, Some(msg))), request, own)) == msg
    ensures ErrorMessage(HttpError(Some(ServerResponse(statusText, Some(""))), request, own))
         == ErrorMessage(HttpError(Some(ServerResponse(statusText, None)), request, own))
  {
  }

  /** Once a response arrived, neither the request flag nor the error's own message matter. */
  lemma ResponseDecides(r: ServerResponse, q1: bool, m1: string, q2: bool, m2: string)
    ensures ErrorMessage(HttpError(Some(r), q1, m1)) == ErrorMessage(HttpError(Some(r), q2, m2))
  {
  }
}
