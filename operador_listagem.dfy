/** The operator list page: it fetches the operators, shows a non-admin only
    their own row, and deletes an operator through a confirmation dialog. */
module OperadorListagem {
  import opened Wrappers
  import opened JsValue
  import opened Http
  import opened Session
  import Lists
  import Records

  datatype Outcome =
    | Listed        // the list was replaced by the fetched one
    | LoadError     // "Erro ao carregar operadores."
    | Pending       // the request has not settled
    | Deleted       // the operator was removed from the list
    | DeleteError   // "Erro ao excluir operador."
    | Ignored       // confirm with no operator selected

  function ListRequest(apiUrl: string, token: string): Request
  {
    Request(GET, apiUrl + "/operador/", map["Content-Type" := ContentTypeJson, "Authorization" := "Bearer " + token], Undefined)
  }

  /** `json.data?.operador || []`: `None` where reading it throws. */
  function Fetched(json: Value): (r: Option<Value>)
    ensures IsNullish(json) <==> r.None?
    ensures !IsNullish(json) && !Truthy(OptGet(OptGet(json, "data"), "operador")) ==> r == Some(Arr([]))
    ensures !IsNullish(json) && Truthy(OptGet(OptGet(json, "data"), "operador")) ==>
              r == Some(OptGet(OptGet(json, "data"), "operador"))
  {
    match Get(json, "data")
    case None => None
    case Some(data) => Some(Or(OptGet(data, "operador"), Arr([])))
  }

  /** The filter a non-admin's list goes through: `Number(op.id_operador) === Number(id)`. */
  predicate Own(op: Value, id: Value)
  {
    SameNumber(OptGet(op, "id_operador"), id)
  }

  /** `lista.filter(op => Number(op.id_operador) === Number(usuarioLogado.id_operador))`:
      reading the id of a `null` or missing entry throws (`None`). */
  function OwnRows(lista: seq<Value>, id: Value): (r: Option<seq<Value>>)
    ensures r.Some? <==> forall i :: 0 <= i < |lista| ==> !IsNullish(lista[i])
    ensures r.Some? ==> Lists.IsSubsequence(r.value, lista)
    ensures r.Some? ==> forall op :: op in r.value <==> op in lista && Own(op, id)
    ensures r.Some? ==> forall op :: multiset(r.value)[op] == if Own(op, id) then multiset(lista)[op] else 0
  {
    if exists i :: 0 <= i < |lista| && IsNullish(lista[i]) then None
    else
      var keep := (op: Value) => Own(op, id);
      Lists.FilterIsSubsequence(lista, keep);
      Lists.FilterCounts(lista, keep);
      assert forall op :: op in Lists.Filter(lista, keep) <==> multiset(Lists.Filter(lista, keep))[op] > 0;
      Some(Lists.Filter(lista, keep))
  }

  /** Whether the list is the signed-in operator's own row only: `!isAdmin && usuarioLogado`. */
  predicate Restricted(isAdmin: Value, usuarioLogado: Value)
  {
    !Truthy(isAdmin) && Truthy(usuarioLogado)
  }

  /** The list `fetchOperadores` stores, or `None` when it throws. A fetched
      value that is not a list is kept out of the model (`None`). */
  function Visible(json: Value, isAdmin: Value, usuarioLogado: Value): (r: Option<seq<Value>>)
    ensures r.Some? <==>
      && Fetched(json).Some? && Fetched(json).value.Arr?
      && (Restricted(isAdmin, usuarioLogado) ==>
            forall i :: 0 <= i < |Fetched(json).value.items| ==> !IsNullish(Fetched(json).value.items[i]))
    ensures r.Some? ==> Lists.IsSubsequence(r.value, Fetched(json).value.items)
  {
    match Fetched(json)
    case None => None
    case Some(lista) =>
      if !lista.Arr? then None
      else if Restricted(isAdmin, usuarioLogado) then OwnRows(lista.items, OptGet(usuarioLogado, "id_operador"))
      else Lists.SubsequenceOfItself(lista.items); Some(lista.items)
  }

  /** The fetched list, when the body holds one under `data.operador`. */
  predicate Holds(json: Value, lista: seq<Value>)
  {
    !IsNullish(json) && OptGet(OptGet(json, "data"), "operador") == Arr(lista)
  }

  /** A non-admin with a stored profile sees exactly the fetched operators
      whose numeric id is the profile's, in the fetched order. */
  lemma {:induction false} NonAdminSeesOwnRow(json: Value, lista: seq<Value>, isAdmin: Value, usuarioLogado: Value)
    requires Holds(json, lista) && Restricted(isAdmin, usuarioLogado)
    requires forall i :: 0 <= i < |lista| ==> !IsNullish(lista[i])
    ensures var r := Visible(json, isAdmin, usuarioLogado);
      && r.Some?
      && Lists.IsSubsequence(r.value, lista)
      && (forall op :: op in r.value <==> op in lista && Own(op, OptGet(usuarioLogado, "id_operador")))
      && (forall op :: multiset(r.value)[op]
                       == if Own(op, OptGet(usuarioLogado, "id_operador")) then multiset(lista)[op] else 0)
  {
    var r := OwnRows(lista, OptGet(usuarioLogado, "id_operador"));
    assert r.Some?;
    assert Visible(json, isAdmin, usuarioLogado) == r;
  }

  /** An admin, or a session with no profile, sees the fetched list as it is. */
  lemma AdminSeesAll(json: Value, lista: seq<Value>, isAdmin: Value, usuarioLogado: Value)
    requires Holds(json, lista) && !Restricted(isAdmin, usuarioLogado)
    ensures Visible(json, isAdmin, usuarioLogado) == Some(lista)
  {
  }

  /** No `data.operador` gives an empty list, whoever is signed in. */
  lemma MissingListIsEmpty(json: Value, isAdmin: Value, usuarioLogado: Value)
    requires !IsNullish(json) && IsNullish(OptGet(OptGet(json, "data"), "operador"))
    ensures Visible(json, isAdmin, usuarioLogado) == Some([])
  {
    assert Lists.Filter([], (op: Value) => Own(op, OptGet(usuarioLogado, "id_operador"))) == [];
  }

  /** Whatever the session, the list shown is a sub-sequence of the fetched one. */
  lemma {:induction false} VisibleIsSubsequence(json: Value, lista: seq<Value>, isAdmin: Value, usuarioLogado: Value)
    requires Holds(json, lista) && Visible(json, isAdmin, usuarioLogado).Some?
    ensures Lists.IsSubsequence(Visible(json, isAdmin, usuarioLogado).value, lista)
  {
    if Restricted(isAdmin, usuarioLogado) {
      Lists.FilterIsSubsequence(lista, (op: Value) => Own(op, OptGet(usuarioLogado, "id_operador")));
    } else {
      Lists.SubsequenceOfItself(lista);
    }
  }

  /** The list after `fetchOperadores`, given the list before it: any status
      that is not OK (including 401) and any error keep the old list. */
  function FetchedList(current: seq<Value>, server: Server, isAdmin: Value, usuarioLogado: Value): seq<Value>
  {
    if !AnsweredOk(server, 0) then current
    else match server[0].response.json
      case None => current
      case Some(json) => Visible(json, isAdmin, usuarioLogado).GetOr(current)
  }

  function FetchOutcome(server: Server, isAdmin: Value, usuarioLogado: Value): Outcome
  {
    if |server| == 0 then Pending
    else if !AnsweredOk(server, 0) then LoadError
    else match server[0].response.json
      case None => LoadError
      case Some(json) => if Visible(json, isAdmin, usuarioLogado).Some? then Listed else LoadError
  }

  /** A failed list fetch leaves the list unchanged. */
  lemma FailedFetchKeepsList(current: seq<Value>, server: Server, isAdmin: Value, usuarioLogado: Value)
    requires FetchOutcome(server, isAdmin, usuarioLogado) != Listed
    ensures FetchedList(current, server, isAdmin, usuarioLogado) == current
  {
  }

  /** The dialog state: whether it is open and the operator picked (`null` when none). */
  datatype View = View(operadores: seq<Value>, showConfirm: bool, target: Value)

  const InitialView: View := View([], false, Null)

  function Clicked(v: View, operador: Value): (r: View)
    ensures r.operadores == v.operadores && r.showConfirm && r.target == operador
  {
    View(v.operadores, true, operador)
  }

  function DeleteRequest(apiUrl: string, token: string, target: Value): Request
  {
    Request(DELETE, apiUrl + "/operador/delete/" + JsString(OptGet(target, "id_operador")),
            map["Authorization" := "Bearer " + token], Undefined)
  }

  /** The view after `handleConfirmDelete`. */
  function Confirmed(v: View, server: Server): View
  {
    if !Truthy(v.target) || |server| == 0 then v
    else
      var list := if AnsweredOk(server, 0)
                  then Records.RemoveById(v.operadores, "id_operador", OptGet(v.target, "id_operador"))
                  else v.operadores;
      View(list, false, Null)
  }

  function ConfirmOutcome(v: View, server: Server): Outcome
  {
    if !Truthy(v.target) then Ignored
    else if |server| == 0 then Pending
    else if AnsweredOk(server, 0) then Deleted
    else DeleteError
  }

  /** Confirming with no operator selected does nothing. */
  lemma NoTargetNoop(v: View, server: Server)
    requires !Truthy(v.target)
    ensures Confirmed(v, server) == v && ConfirmOutcome(v, server) == Ignored
  {
  }

  /** A settled delete closes the dialog and clears the selection on success and
      on failure; success removes exactly the operators with the target's id,
      failure keeps the list. */
  lemma DeleteSettles(v: View, server: Server)
    requires Truthy(v.target) && |server| > 0
    ensures var after := Confirmed(v, server);
      var id := OptGet(v.target, "id_operador");
      && !after.showConfirm && after.target == Null
      && (ConfirmOutcome(v, server) == Deleted ==> after.operadores == Records.RemoveById(v.operadores, "id_operador", id))
      && (ConfirmOutcome(v, server) == DeleteError ==> after.operadores == v.operadores)
  {
  }

  /** The mounted page. `isAdmin` and `usuarioLogado` are the values the page
      parses from the session when it renders. */
  class ListaOperador {
    var operadores: seq<Value>
    var showConfirm: bool
    var operadorToDelete: Value
    const apiUrl: string
    const token: string
    const isAdmin: Value
    const usuarioLogado: Value

    function ViewOf(): View
      reads this
    {
      View(operadores, showConfirm, operadorToDelete)
    }

    constructor (apiUrl: string, items: Items, isAdmin: Value, usuarioLogado: Value)
      ensures this.apiUrl == apiUrl && token == Read(items, TokenKey).GetOr("")
      ensures this.isAdmin == isAdmin && this.usuarioLogado == usuarioLogado
      ensures ViewOf() == InitialView
    {
      this.apiUrl := apiUrl;
      this.token := Read(items, TokenKey).GetOr("");
      this.isAdmin := isAdmin;
      this.usuarioLogado := usuarioLogado;
      operadores := [];
      showConfirm := false;
      operadorToDelete := Null;
    }

    /** `fetchOperadores`, run on mount whether or not there is a token. */
    method FetchOperadores(server: Server) returns (sent: Request, outcome: Outcome)
      modifies this`operadores
      ensures sent == ListRequest(apiUrl, token)
      ensures operadores == FetchedList(old(operadores), server, isAdmin, usuarioLogado)
      ensures outcome == FetchOutcome(server, isAdmin, usuarioLogado)
    {
      sent := ListRequest(apiUrl, token);
      if |server| == 0 {
        return sent, Pending;
      }
      if !AnsweredOk(server, 0) || server[0].response.json.None? {
        return sent, LoadError;
      }
      var lista := Visible(server[0].response.json.value, isAdmin, usuarioLogado);
      if lista.None? {
        return sent, LoadError;
      }
      operadores := lista.value;
      outcome := Listed;
    }

    method HandleDeleteClick(operador: Value)
      modifies this`operadorToDelete, this`showConfirm
      ensures ViewOf() == Clicked(old(ViewOf()), operador)
    {
      operadorToDelete := operador;
      showConfirm := true;
    }

    method HandleConfirmDelete(server: Server) returns (sent: seq<Request>, outcome: Outcome)
      modifies this`operadores, this`showConfirm, this`operadorToDelete
      ensures ViewOf() == Confirmed(old(ViewOf()), server)
      ensures outcome == ConfirmOutcome(old(ViewOf()), server)
      ensures sent == if Truthy(old(operadorToDelete)) then [DeleteRequest(apiUrl, token, old(operadorToDelete))] else []
    {
      if !Truthy(operadorToDelete) {
        return [], Ignored;
      }
      sent := [DeleteRequest(apiUrl, token, operadorToDelete)];
      if |server| == 0 {
        return sent, Pending;
      }
      if AnsweredOk(server, 0) {
        operadores := Records.RemoveById(operadores, "id_operador", OptGet(operadorToDelete, "id_operador"));
        outcome := Deleted;
      } else {
        outcome := DeleteError;
      }
      showConfirm := false;
      operadorToDelete := Null;
    }
  }
}
