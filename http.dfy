/** The abstract server the pages talk to. A request is what the page hands
    to `fetch`; the server is a supplied list of replies, consumed one per
    request in the order the requests are issued. */
module Http {
  import opened Wrappers
  import opened JsValue

  datatype Method = GET | POST | PUT | DELETE

  /** The URL, the headers object and the payload object (serialised with
      `JSON.stringify` on the wire; `Undefined` when there is no body). */
  datatype Request = Request(verb: Method, url: string, headers: map<string, string>, body: Value)

  /** A completed response: its status and its body as `res.json()` parses
      it (`None` when the body is not JSON, so `res.json()` rejects). */
  datatype Response = Response(status: int, json: Option<Value>)

  /** What `fetch` does with one request: resolve with a response, or reject
      because of a transport failure. */
  datatype Reply = Answered(response: Response) | NetworkError

  /** The replies to the requests of one workflow, in order. A request past the
      end of the list never completes. */
  type Server = seq<Reply>

  /** `res.ok`. */
  predicate Ok(r: Response)
  {
    200 <= r.status <= 299
  }

  /** The reply at position `k` was a response with an OK status. */
  predicate AnsweredOk(server: Server, k: nat)
  {
    k < |server| && server[k].Answered? && Ok(server[k].response)
  }

  /** The first `n` replies are all OK responses. */
  predicate AllOk(server: Server, n: nat)
  {
    n <= |server| && forall k :: 0 <= k < n ==> AnsweredOk(server, k)
  }

  /** The first `n` replies are OK exactly when the first is and the `n - 1` after it are. */
  lemma AllOkTail(server: Server, n: nat)
    requires n >= 1
    ensures AllOk(server, n) <==> AnsweredOk(server, 0) && AllOk(server[1..], n - 1)
  {
    if AllOk(server, n) {
      forall k | 0 <= k < n - 1
        ensures AnsweredOk(server[1..], k)
      {
        assert AnsweredOk(server, k + 1);
      }
    }
    if AnsweredOk(server, 0) && AllOk(server[1..], n - 1) {
      forall k | 0 <= k < n
        ensures AnsweredOk(server, k)
      {
        if k > 0 {
          assert AnsweredOk(server[1..], k - 1);
        }
      }
    }
  }

  /** `${token}` for a value read with `localStorage.getItem`, which is `null` when absent. */
  function TokenText(token: Option<string>): string
  {
    match token
    case Some(t) => t
    case None => "null"
  }

  /** The `Authorization` value the pages build with `Bearer ${token}`. */
  function Bearer(token: Option<string>): string
  {
    "Bearer " + TokenText(token)
  }

  /** A string read from storage or a route parameter is truthy when present and non-empty. */
  predicate Present(s: Option<string>)
  {
    s.Some? && s.value != ""
  }

  const ContentTypeJson: string := "application/json"
}
