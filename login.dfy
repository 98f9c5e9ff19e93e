/** The login form's submit handler: it posts the credentials and, on an OK
    response, writes the token, the admin flag and the operator profile to
    the session store, one `setItem` after the other. */
module Login {
  import opened Wrappers
  import opened JsValue
  import opened Http
  import opened Session
  import opened Json
  import Routes

  datatype Outcome =
    | LoggedIn            // success toast, navigation to /app/clientes
    | LoginFailed         // "Erro no login" toast; nothing written
    | Waiting             // the request has not completed

  /** `POST /login` with `{ email: usuario, senha }` and only the JSON content type. */
  function LoginRequest(apiUrl: string, usuario: string, senha: string): (r: Request)
    ensures r.verb == POST && r.url == apiUrl + "/login"
    ensures r.headers.Keys == {"Content-Type"}
    ensures OptGet(r.body, "email") == Str(usuario) && OptGet(r.body, "senha") == Str(senha)
  {
    var ms := [Member("email", Str(usuario)), Member("senha", Str(senha))];
    assert "senha" != "email" by { assert "senha"[0] != "email"[0]; }
    assert ms[1..] == [Member("senha", Str(senha))];
    assert Lookup(ms[1..], "senha") == Str(senha);
    assert Lookup(ms, "senha") == Str(senha);
    Request(POST, apiUrl + "/login", map["Content-Type" := ContentTypeJson], Obj(ms))
  }

  /** The object stored under `usuarioLogado`, built from the response body. */
  function Profile(data: Value): Value
  {
    Obj([ Member("id_operador", OptGet(data, "id_operador")),
          Member("nome", OptGet(data, "nome")),
          Member("email", OptGet(data, "email")),
          Member("admin", OptGet(data, "admin")) ])
  }

  /** The body of a login that gets as far as writing the session: an OK
      response whose body parses to something whose `token` can be read. */
  function LoginData(server: Server): (r: Option<Value>)
    ensures r.Some? ==> AnsweredOk(server, 0) && server[0].response.json == Some(r.value)
    ensures r.Some? ==> !IsNullish(r.value)
    ensures AnsweredOk(server, 0) && server[0].response.json.Some? && !IsNullish(server[0].response.json.value)
            ==> r == server[0].response.json
  {
    if |server| == 0 || server[0].NetworkError? || !Ok(server[0].response) then None
    else match server[0].response.json
      case None => None
      case Some(d) => if IsNullish(d) then None else Some(d)
  }

  /** The three writes of a successful login, in program order. */
  function Written(items: Items, data: Value): Items
  {
    items[TokenKey := JsString(OptGet(data, "token"))]
         [IsAdminKey := StorageText(OptGet(data, "admin"))]
         [ProfileKey := StorageText(Profile(data))]
  }

  function StoreAfter(items: Items, server: Server): (r: Items)
    ensures r.Keys <= items.Keys + {TokenKey, IsAdminKey, ProfileKey}
    ensures forall k :: k in items && k != TokenKey && k != IsAdminKey && k != ProfileKey ==>
              k in r && r[k] == items[k]
  {
    match LoginData(server)
    case Some(d) => Written(items, d)
    case None => items
  }

  function OutcomeOf(server: Server): Outcome
  {
    if |server| == 0 then Waiting
    else if LoginData(server).Some? then LoggedIn
    else LoginFailed
  }

  method HandleSubmit(store: SessionStore, apiUrl: string, usuario: string, senha: string, server: Server)
    returns (sent: Request, outcome: Outcome)
    modifies store
    ensures sent == LoginRequest(apiUrl, usuario, senha)
    ensures outcome == OutcomeOf(server)
    ensures store.items == StoreAfter(old(store.items), server)
  {
    sent := LoginRequest(apiUrl, usuario, senha);
    if |server| == 0 {
      return sent, Waiting;
    }
    if server[0].NetworkError? || !Ok(server[0].response) {
      return sent, LoginFailed;
    }
    var json := server[0].response.json;
    if json.None? {
      return sent, LoginFailed;
    }
    var data := json.value;
    var token := Get(data, "token");
    if token.None? {
      return sent, LoginFailed;
    }
    store.SetItem(TokenKey, JsString(token.value));
    store.SetItem(IsAdminKey, StorageText(OptGet(data, "admin")));
    store.SetItem(ProfileKey, StorageText(Profile(data)));
    outcome := LoggedIn;
  }

  /** A login that is not answered with an OK, readable body writes nothing. */
  lemma {:induction false} FailedLoginWritesNothing(items: Items, server: Server)
    requires OutcomeOf(server) != LoggedIn
    ensures StoreAfter(items, server) == items
  {
  }

  /** A successful login stores the token as `String(data.token)`, the admin
      flag as `JSON.stringify(data.admin)` and the profile as the JSON text of
      exactly `id_operador`, `nome`, `email` and `admin`; no other key changes. */
  lemma {:induction false} SuccessfulLoginWrites(items: Items, server: Server)
    requires OutcomeOf(server) == LoggedIn
    ensures var d := LoginData(server).value;
      var after := StoreAfter(items, server);
      && after.Keys == items.Keys + {TokenKey, IsAdminKey, ProfileKey}
      && after[TokenKey] == JsString(OptGet(d, "token"))
      && after[IsAdminKey] == StorageText(OptGet(d, "admin"))
      && after[ProfileKey] == StorageText(Profile(d))
      && forall k :: k in items && k !in {TokenKey, IsAdminKey, ProfileKey} ==> after[k] == items[k]
  {
  }

  /** A login answered with a non-empty string token passes `requireAuth` afterwards. */
  lemma {:induction false} LoginOpensPrivateArea(items: Items, server: Server)
    requires OutcomeOf(server) == LoggedIn
    requires var t := OptGet(LoginData(server).value, "token"); t.Str? && t.s != ""
    ensures HasToken(StoreAfter(items, server))
    ensures Routes.RequireAuth(StoreAfter(items, server)).None?
  {
  }

  /** An OK response without a token stores the text "undefined", which
      `requireAuth` accepts as a token. */
  lemma {:induction false} MissingTokenIsStoredAsText(items: Items, server: Server)
    requires OutcomeOf(server) == LoggedIn
    requires OptGet(LoginData(server).value, "token") == Undefined
    ensures StoreAfter(items, server)[TokenKey] == "undefined"
    ensures Routes.RequireAuth(StoreAfter(items, server)).None?
  {
  }

  const AnaBody: Value := Obj([ Member("token", Str("T1")), Member("admin", Bool(false)),
                                Member("id_operador", Num(7)), Member("nome", Str("Ana")),
                                Member("email", Str("a@b.com")) ])

  /** A login whose body holds a string token and a boolean `admin` stores
      that token and "true" or "false". */
  lemma {:induction false} TokenAndFlagStored(items: Items, server: Server, t: string, admin: bool)
    requires OutcomeOf(server) == LoggedIn
    requires OptGet(LoginData(server).value, "token") == Str(t)
    requires OptGet(LoginData(server).value, "admin") == Bool(admin)
    ensures StoreAfter(items, server)[TokenKey] == t
    ensures StoreAfter(items, server)[IsAdminKey] == if admin then "true" else "false"
  {
    SuccessfulLoginWrites(items, server);
  }

  /** Logging in as Ana (operator 7, not an admin) with token T1 leaves the
      session holding T1 and `false`. */
  lemma AnaLogsIn(items: Items, server: Server)
    requires server == [Answered(Response(200, Some(AnaBody)))]
    ensures OutcomeOf(server) == LoggedIn
    ensures StoreAfter(items, server)[TokenKey] == "T1"
    ensures StoreAfter(items, server)[IsAdminKey] == "false"
  {
    assert LoginData(server) == Some(AnaBody);
    assert OptGet(AnaBody, "token") == Str("T1");
    assert OptGet(AnaBody, "admin") == Bool(false);
    TokenAndFlagStored(items, server, "T1", false);
  }

  /** After Ana's login the customer list renders without a redirect. */
  lemma AnaSeesCustomers(items: Items, server: Server)
    requires server == [Answered(Response(200, Some(AnaBody)))]
    ensures Routes.Resolve("/app/clientes", StoreAfter(items, server)) == Routes.Render(Routes.ClientesPage)
  {
    AnaLogsIn(items, server);
    Routes.ClientesRenders(StoreAfter(items, server));
  }
}
