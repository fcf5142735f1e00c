/**
 * The HTTP side of a reconcile, reduced to what a request can come back
 * with. `HttpClient` stands for the injected `HTTPClient` collaborator: it
 * answers every URL from a fixed response table and records every request,
 * the way the test double counts calls and keeps their arguments.
 */
module Http {

  /** What reading a response body gives: no body at all, a read error, or the text. */
  datatype Body = NoBody | ReadError(error: string) | Content(text: string)

  /** What `httpClient.Do` gives: a transport error or a response. */
  datatype FetchOutcome = TransportError(error: string) | Response(status: int, body: Body)

  /** The status the reconcilers accept (`http.StatusOK`). */
  const StatusOK: int := 200

  class HttpClient {
    /** The answer the remote side gives to a GET of each URL. */
    const respond: string -> FetchOutcome
    /** The URLs requested so far, oldest first. */
    var requests: seq<string>

    constructor (respond: string -> FetchOutcome)
      ensures this.respond == respond && requests == []
    {
      this.respond := respond;
      requests := [];
    }

    /** Issues one GET request. */
    method Do(url: string) returns (outcome: FetchOutcome)
      modifies this
      ensures outcome == respond(url)
      ensures requests == old(requests) + [url]
    {
      requests := requests + [url];
      outcome := respond(url);
    }
  }
}
