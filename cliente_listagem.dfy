/** The customer list page: it lists the customers once a token is present,
    treats a 401 as an expired session, and deletes a customer through a
    confirmation dialog. */
module ClienteListagem {
  import opened Wrappers
  import opened JsValue
  import opened Http
  import opened Session
  import Lists
  import Records

  /** The key the expiry handler removes besides the token. */
  const UserKey: string := "user"

  /** The session after `handleTokenExpirado`. */
  function Expired(items: Items): (r: Items)
    ensures TokenKey !in r && UserKey !in r
    ensures forall k :: k != TokenKey && k != UserKey ==> (k in r <==> k in items)
    ensures forall k :: k in r ==> r[k] == items[k]
  {
    items - {TokenKey, UserKey}
  }

  /** The session outlives the expiry handler: the profile written at login stays. */
  lemma ExpiryKeepsProfile(items: Items)
    requires ProfileKey in items
    ensures ProfileKey in Expired(items) && Expired(items)[ProfileKey] == items[ProfileKey]
    ensures !HasToken(Expired(items))
  {
  }

  datatype Outcome =
    | Listed              // the list was replaced by the fetched one
    | LoadError           // "Erro ao carregar Clientes."
    | SessionExpired      // the expiry handler ran
    | NotLoggedIn         // no token: back to the login page, no fetch
    | Pending             // the request has not settled
    | Deleted             // the customer was removed from the list
    | DeleteError         // "Erro ao excluir cliente."
    | Ignored             // confirm with no customer selected

  predicate Unauthorized(server: Server)
  {
    |server| > 0 && server[0].Answered? && server[0].response.status == 401
  }

  /** `json.data?.clientes || []`: `None` where reading it throws (no body
      object) or where the value found is not a list. */
  function ListOf(json: Value): (r: Option<seq<Value>>)
    ensures IsNullish(json) ==> r.None?
    ensures !IsNullish(json) && !Truthy(OptGet(OptGet(json, "data"), "clientes")) ==> r == Some([])
    ensures !IsNullish(json) && OptGet(OptGet(json, "data"), "clientes").Arr? ==>
              r == Some(OptGet(OptGet(json, "data"), "clientes").items)
  {
    match Get(json, "data")
    case None => None
    case Some(data) =>
      match Or(OptGet(data, "clientes"), Arr([]))
      case Arr(items) => Some(items)
      case _ => None
  }

  function ListRequest(apiUrl: string, token: string): Request
  {
    Request(GET, apiUrl + "/cliente/", map["Content-Type" := ContentTypeJson, "Authorization" := "Bearer " + token], Undefined)
  }

  /** The list after `fetchClientes`, given the list before it. */
  function FetchedList(current: seq<Value>, server: Server): seq<Value>
  {
    if |server| == 0 || server[0].NetworkError? || !Ok(server[0].response) then current
    else match server[0].response.json
      case None => current
      case Some(json) => ListOf(json).GetOr(current)
  }

  function FetchOutcome(server: Server): Outcome
  {
    if |server| == 0 then Pending
    else if Unauthorized(server) then SessionExpired
    else if server[0].NetworkError? || !Ok(server[0].response) then LoadError
    else match server[0].response.json
      case None => LoadError
      case Some(json) => if ListOf(json).Some? then Listed else LoadError
  }

  /** Only a response that is OK and readable replaces the list; a 401 expires
      the session and every other status, a transport failure or an unreadable
      body leaves the list as it was. */
  lemma FetchReplacesOnlyOnSuccess(current: seq<Value>, server: Server)
    ensures FetchedList(current, server) != current ==> FetchOutcome(server) == Listed
    ensures FetchOutcome(server) == Listed <==>
      AnsweredOk(server, 0) && server[0].response.json.Some? && ListOf(server[0].response.json.value).Some?
    ensures FetchOutcome(server) == Listed ==>
      Some(FetchedList(current, server)) == ListOf(server[0].response.json.value)
    ensures Unauthorized(server) ==> FetchedList(current, server) == current && FetchOutcome(server) == SessionExpired
  {
  }

  /** The page's view state: the list, whether the dialog is open, and the
      customer picked for deletion (`null` when none). */
  datatype View = View(clientes: seq<Value>, showConfirm: bool, target: Value)

  const InitialView: View := View([], false, Null)

  /** `handleDeleteClick(cliente)`. */
  function Clicked(v: View, cliente: Value): (r: View)
    ensures r.clientes == v.clientes && r.showConfirm && r.target == cliente
  {
    View(v.clientes, true, cliente)
  }

  function DeleteRequest(apiUrl: string, token: string, target: Value): Request
  {
    Request(DELETE, apiUrl + "/cliente/delete/" + JsString(OptGet(target, "id_cliente")),
            map["Authorization" := "Bearer " + token], Undefined)
  }

  /** The confirm handler gets as far as the `try` block. */
  predicate ReachesTry(v: View, token: string)
  {
    Truthy(v.target) && token != ""
  }

  /** The view after `handleConfirmDelete`. */
  function Confirmed(v: View, token: string, server: Server): (r: View)
    ensures Lists.IsSubsequence(r.clientes, v.clientes)
    ensures r.clientes == v.clientes
         || r.clientes == Records.RemoveById(v.clientes, "id_cliente", OptGet(v.target, "id_cliente"))
    ensures r == v || (!r.showConfirm && r.target == Null)
  {
    Lists.SubsequenceOfItself(v.clientes);
    if !ReachesTry(v, token) || |server| == 0 then v
    else
      var list := if AnsweredOk(server, 0) && !Unauthorized(server)
                  then Records.RemoveById(v.clientes, "id_cliente", OptGet(v.target, "id_cliente"))
                  else v.clientes;
      View(list, false, Null)
  }

  /** The session after `handleConfirmDelete`: expired when there is no token
      or when the DELETE is answered with 401. */
  function ConfirmedStore(items: Items, v: View, token: string, server: Server): Items
  {
    if !Truthy(v.target) then items
    else if token == "" || Unauthorized(server) then Expired(items)
    else items
  }

  function ConfirmOutcome(v: View, token: string, server: Server): Outcome
  {
    if !Truthy(v.target) then Ignored
    else if token == "" then SessionExpired
    else if |server| == 0 then Pending
    else if Unauthorized(server) then SessionExpired
    else if AnsweredOk(server, 0) then Deleted
    else DeleteError
  }

  /** Confirming with no customer selected changes nothing and sends nothing. */
  lemma NoTargetNoop(v: View, token: string, items: Items, server: Server)
    requires !Truthy(v.target)
    ensures Confirmed(v, token, server) == v
    ensures ConfirmedStore(items, v, token, server) == items
    ensures ConfirmOutcome(v, token, server) == Ignored
  {
  }

  /** Once the `try` block is reached and its request settles, the dialog is
      closed and the selection cleared, whatever the reply. */
  lemma TrySettlesClosesDialog(v: View, token: string, server: Server)
    requires ReachesTry(v, token) && |server| > 0
    ensures !Confirmed(v, token, server).showConfirm
    ensures Confirmed(v, token, server).target == Null
  {
  }

  /** With no token the session is expired before the `try`, so the dialog
      stays as it was. */
  lemma MissingTokenKeepsDialog(v: View, items: Items, server: Server)
    requires Truthy(v.target)
    ensures Confirmed(v, "", server) == v
    ensures ConfirmedStore(items, v, "", server) == Expired(items)
  {
  }

  /** A delete answered OK removes exactly the customers whose id is the
      target's, keeping the others in order; any other reply keeps the list. */
  lemma DeleteEffectOnList(v: View, token: string, server: Server)
    requires ReachesTry(v, token) && |server| > 0
    ensures var id := OptGet(v.target, "id_cliente");
      var after := Confirmed(v, token, server).clientes;
      && (ConfirmOutcome(v, token, server) == Deleted ==> after == Records.RemoveById(v.clientes, "id_cliente", id))
      && (ConfirmOutcome(v, token, server) != Deleted ==> after == v.clientes)
  {
  }

  /** A second successful delete of the same customer leaves the list alone. */
  lemma RepeatedDeleteNoop(v: View, token: string, server: Server)
    requires ReachesTry(v, token) && ConfirmOutcome(v, token, server) == Deleted
    ensures var after := Confirmed(v, token, server);
      Confirmed(View(after.clientes, true, v.target), token, server).clientes == after.clientes
  {
    Records.RemoveByIdIdempotent(v.clientes, "id_cliente", OptGet(v.target, "id_cliente"));
  }

  /** The mounted page with its state fields and the session it shares. */
  class ListaCliente {
    var clientes: seq<Value>
    var showConfirm: bool
    var clienteToDelete: Value
    const store: SessionStore
    const apiUrl: string
    /** `localStorage.getItem("token") ?? ""`, read when the page renders. */
    const token: string

    function ViewOf(): View
      reads this
    {
      View(clientes, showConfirm, clienteToDelete)
    }

    constructor (store: SessionStore, apiUrl: string)
      ensures this.store == store && this.apiUrl == apiUrl
      ensures token == Read(store.items, TokenKey).GetOr("")
      ensures ViewOf() == InitialView
    {
      this.store := store;
      this.apiUrl := apiUrl;
      this.token := Read(store.items, TokenKey).GetOr("");
      clientes := [];
      showConfirm := false;
      clienteToDelete := Null;
    }

    /** `handleTokenExpirado`: drops the token and `user`, then goes to login. */
    method HandleTokenExpirado()
      modifies store
      ensures store.items == Expired(old(store.items))
    {
      store.RemoveItem(TokenKey);
      store.RemoveItem(UserKey);
    }

    method FetchClientes(server: Server) returns (sent: Request, outcome: Outcome)
      modifies this`clientes, store
      ensures sent == ListRequest(apiUrl, token)
      ensures clientes == FetchedList(old(clientes), server)
      ensures store.items == if Unauthorized(server) then Expired(old(store.items)) else old(store.items)
      ensures outcome == FetchOutcome(server)
    {
      sent := ListRequest(apiUrl, token);
      if |server| == 0 {
        return sent, Pending;
      }
      if server[0].NetworkError? {
        return sent, LoadError;
      }
      var res := server[0].response;
      if res.status == 401 {
        HandleTokenExpirado();
        return sent, SessionExpired;
      }
      if !Ok(res) || res.json.None? {
        return sent, LoadError;
      }
      var lista := ListOf(res.json.value);
      if lista.None? {
        return sent, LoadError;
      }
      clientes := lista.value;
      outcome := Listed;
    }

    /** The effect run when the page mounts. */
    method Mount(server: Server) returns (sent: seq<Request>, outcome: Outcome)
      modifies this`clientes, store
      ensures token == "" ==> sent == [] && outcome == NotLoggedIn && unchanged(this, store)
      ensures token != "" ==> sent == [ListRequest(apiUrl, token)] && outcome == FetchOutcome(server)
      ensures token != "" ==> clientes == FetchedList(old(clientes), server)
      ensures token != "" ==> store.items == if Unauthorized(server) then Expired(old(store.items)) else old(store.items)
    {
      if token == "" {
        return [], NotLoggedIn;
      }
      var req;
      req, outcome := FetchClientes(server);
      sent := [req];
    }

    method HandleDeleteClick(cliente: Value)
      modifies this`clienteToDelete, this`showConfirm
      ensures ViewOf() == Clicked(old(ViewOf()), cliente)
    {
      clienteToDelete := cliente;
      showConfirm := true;
    }

    method HandleConfirmDelete(server: Server) returns (sent: seq<Request>, outcome: Outcome)
      modifies this`clientes, this`showConfirm, this`clienteToDelete, store
      ensures ViewOf() == Confirmed(old(ViewOf()), token, server)
      ensures store.items == ConfirmedStore(old(store.items), old(ViewOf()), token, server)
      ensures outcome == ConfirmOutcome(old(ViewOf()), token, server)
      ensures sent == if ReachesTry(old(ViewOf()), token) then [DeleteRequest(apiUrl, token, old(clienteToDelete))] else []
    {
      if !Truthy(clienteToDelete) {
        return [], Ignored;
      }
      if token == "" {
        HandleTokenExpirado();
        return [], SessionExpired;
      }
      sent := [DeleteRequest(apiUrl, token, clienteToDelete)];
      if |server| == 0 {
        return sent, Pending;
      }
      if Unauthorized(server) {
        HandleTokenExpirado();
        outcome := SessionExpired;
      } else if AnsweredOk(server, 0) {
        clientes := Records.RemoveById(clientes, "id_cliente", OptGet(clienteToDelete, "id_cliente"));
        outcome := Deleted;
      } else {
        outcome := DeleteError;
      }
      showConfirm := false;
      clienteToDelete := Null;
    }
  }
}
