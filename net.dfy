/** The HTTP side of the world as the dispatcher sees it: a request is a URL,
    and what comes back is chosen by the environment. */
module Net {
  import opened Logging

  /** What awaiting `HttpClient.GetAsync` yields: a response with a status
      code and the text `StatusCode.ToString()` prints for it, or an
      exception with its message. */
  datatype Response = Responded(code: nat, statusText: string) | Fault(message: string)

  /** `HttpStatusCode.OK`. */
  const StatusOk: nat := 200

  /** The observable effects of a stretch of the program: log entries and
      the URLs requested, each in order. */
  datatype Effect = Effect(logs: seq<LogEntry>, sent: seq<string>) {
    function Then(next: Effect): (e: Effect)
      ensures |e.logs| == |logs| + |next.logs| && |e.sent| == |sent| + |next.sent|
    {
      Effect(logs + next.logs, sent + next.sent)
    }
  }

  /** Regrouping a concatenation, for the methods that extend a log or a
      request list by the effect of one more step. */
  lemma AppendAssoc<T>(a: seq<T>, b: seq<T>, c: seq<T>)
    ensures a + b + c == a + (b + c)
  {
  }

  /** The network: `respond(k, url)` is the outcome of the `k`-th request of
      the session (counting from 0), so any sequence of outcomes can be
      described. */
  class Network {
    const respond: (nat, string) -> Response
    var requests: seq<string>

    constructor (respond: (nat, string) -> Response)
      ensures this.respond == respond && requests == []
    {
      this.respond := respond;
      requests := [];
    }

    /** One HTTP GET of `url`. */
    method Get(url: string) returns (r: Response)
      modifies this
      ensures requests == old(requests) + [url]
      ensures r == respond(|old(requests)|, url)
    {
      r := respond(|requests|, url);
      requests := requests + [url];
    }
  }
}
