/** The shared request helper `apiFetch`: it prefixes the endpoint with the
    configured base URL, adds the JSON content type and the bearer token, and
    treats a 401 response as an expired session. */
module Api {
  import opened Wrappers
  import opened JsValue
  import opened Http
  import opened Session

  /** The caller's `RequestInit`: its method, its payload and its own headers
      (a plain object; other header representations are not modelled). */
  datatype Options = Options(verb: Method, body: Value, headers: map<string, string>)

  datatype ApiError = SessionExpired | TransportFailed | NotJson

  datatype Outcome = Parsed(value: Value) | Failed(error: ApiError) | Waiting

  predicate Truthy(token: Option<string>)
  {
    Present(token)
  }

  /** `{ "Content-Type": ..., ...(token ? { Authorization } : {}), ...options.headers }`. */
  function Headers(token: Option<string>, caller: map<string, string>): (h: map<string, string>)
    ensures h.Keys == {"Content-Type"} + (if Truthy(token) then {"Authorization"} else {}) + caller.Keys
    ensures forall k :: k in caller ==> h[k] == caller[k]
    ensures "Content-Type" !in caller ==> h["Content-Type"] == ContentTypeJson
    ensures "Authorization" !in caller && Truthy(token) ==> h["Authorization"] == "Bearer " + token.value
  {
    var base := map["Content-Type" := ContentTypeJson];
    var auth: map<string, string> := if Truthy(token) then map["Authorization" := "Bearer " + token.value] else map[];
    base + auth + caller
  }

  /** The request `apiFetch` hands to `fetch`. */
  function RequestFor(apiUrl: string, endpoint: string, token: Option<string>, options: Options): Request
  {
    Request(options.verb, apiUrl + endpoint, Headers(token, options.headers), options.body)
  }

  /** What the call resolves or rejects with, given the server's reply. */
  function OutcomeOf(server: Server): (r: Outcome)
    ensures r == Failed(SessionExpired) <==> |server| > 0 && server[0].Answered? && server[0].response.status == 401
  {
    if |server| == 0 then Waiting
    else match server[0]
      case NetworkError => Failed(TransportFailed)
      case Answered(res) =>
        if res.status == 401 then Failed(SessionExpired)
        else match res.json
          case Some(v) => Parsed(v)
          case None => Failed(NotJson)
  }

  /** The session after the call: only a 401 touches it, removing the token. */
  function StoreAfter(items: Items, server: Server): Items
  {
    if |server| > 0 && server[0].Answered? && server[0].response.status == 401 then items - {TokenKey}
    else items
  }

  method ApiFetch(store: SessionStore, apiUrl: string, endpoint: string, options: Options, server: Server)
    returns (sent: Request, outcome: Outcome)
    modifies store
    ensures sent == RequestFor(apiUrl, endpoint, Read(old(store.items), TokenKey), options)
    ensures outcome == OutcomeOf(server)
    ensures store.items == StoreAfter(old(store.items), server)
  {
    var token := store.GetItem(TokenKey);
    var headers := Headers(token, options.headers);
    sent := Request(options.verb, apiUrl + endpoint, headers, options.body);
    if |server| == 0 {
      return sent, Waiting;
    }
    match server[0]
    case NetworkError =>
      outcome := Failed(TransportFailed);
    case Answered(res) =>
      if res.status == 401 {
        store.RemoveItem(TokenKey);
        outcome := Failed(SessionExpired);
      } else {
        outcome := match res.json case Some(v) => Parsed(v) case None => Failed(NotJson);
      }
  }

  /** The URL is the base URL followed by the endpoint, and without a stored
      token (and no caller-supplied one) no `Authorization` header is sent. */
  lemma RequestShape(apiUrl: string, endpoint: string, token: Option<string>, options: Options)
    ensures RequestFor(apiUrl, endpoint, token, options).url == apiUrl + endpoint
    ensures "Authorization" !in options.headers ==>
      ("Authorization" in RequestFor(apiUrl, endpoint, token, options).headers <==> Truthy(token))
    ensures "Content-Type" in RequestFor(apiUrl, endpoint, token, options).headers
  {
  }

  /** A 401 removes exactly the token, and the call fails as an expired session. */
  lemma {:induction false} ExpiredSessionClearsOnlyToken(items: Items, server: Server)
    requires |server| > 0 && server[0].Answered? && server[0].response.status == 401
    ensures !HasToken(StoreAfter(items, server)) && TokenKey !in StoreAfter(items, server)
    ensures forall k :: k != TokenKey ==> (k in StoreAfter(items, server) <==> k in items)
    ensures forall k :: k != TokenKey && k in items ==> StoreAfter(items, server)[k] == items[k]
    ensures OutcomeOf(server) == Failed(SessionExpired)
  {
  }

  /** Any other answered status, error statuses included, resolves with the
      parsed body and leaves the session as it was. */
  lemma {:induction false} OtherStatusesPassThrough(items: Items, server: Server, body: Value)
    requires |server| > 0 && server[0].Answered? && server[0].response.status != 401
    requires server[0].response.json == Some(body)
    ensures StoreAfter(items, server) == items
    ensures OutcomeOf(server) == Parsed(body)
  {
  }
}
