/** The route table of the application and its guard `requireAuth`, as a
    resolver from a path and the session to what the router shows. */
module Routes {
  import opened Wrappers
  import opened JsValue
  import opened Session

  datatype Page =
    | LoginPage
    | ClientesPage
    | CadastrarClientePage
    | EditarClientePage(idCliente: string)
    | PatioPage
    | OperadorPage
    | CadastrarOperadorPage
    | EditarOperadorPage(idOperador: string)

  datatype Resolution = Render(page: Page) | Redirect(to: string)

  /** A child route of `/app`: the index route, or a page. */
  datatype Child = Index | ChildPage(page: Page)

  const LoginPath: string := "/login"

  /** `requireAuth`: a redirect to the login page when the stored token is
      absent or empty, `null` (`None`) otherwise. */
  function RequireAuth(items: Items): (r: Option<string>)
    ensures r.Some? <==> !HasToken(items)
    ensures r.Some? ==> r.value == LoginPath
  {
    var token := Read(items, TokenKey);
    if token.None? || token.value == "" then Some(LoginPath) else None
  }

  /** The path without its trailing slashes. */
  function StripTrailingSlashes(s: string): string
  {
    if s != [] && s[|s| - 1] == '/' then StripTrailingSlashes(s[..|s| - 1]) else s
  }

  /** The segments of an absolute path (`None` when the path does not start
      with `/`); trailing slashes are ignored, as the router ignores them. */
  function Segments(path: string): Option<seq<string>>
  {
    if path == [] || path[0] != '/' then None
    else
      var rest := StripTrailingSlashes(path[1..]);
      if rest == "" then Some([]) else Some(Split(rest, '/'))
  }

  /** The children of `/app`, matched against the segments after `app`. */
  function MatchChild(segs: seq<string>): Option<Child>
  {
    if segs == [] then Some(Index)
    else if segs == ["clientes"] then Some(ChildPage(ClientesPage))
    else if segs == ["cadastrarCliente"] then Some(ChildPage(CadastrarClientePage))
    else if |segs| == 3 && segs[0] == "cliente" && segs[1] == "editar" && segs[2] != "" then
      Some(ChildPage(EditarClientePage(segs[2])))
    else if segs == ["patio"] then Some(ChildPage(PatioPage))
    else if segs == ["operador"] then Some(ChildPage(OperadorPage))
    else if segs == ["cadastrarOperador"] then Some(ChildPage(CadastrarOperadorPage))
    else if |segs| == 3 && segs[0] == "operador" && segs[1] == "editar" && segs[2] != "" then
      Some(ChildPage(EditarOperadorPage(segs[2])))
    else None
  }

  /** `/login` is public; `/app` and its children run `requireAuth` first and
      the index child redirects to the customer list; every other path is
      caught by `*` and redirected to the login page. */
  function Resolve(path: string, items: Items): (r: Resolution)
    ensures r.Redirect? ==> r.to == LoginPath || r.to == "/app/clientes"
    ensures r.Redirect? && r.to == "/app/clientes" ==> HasToken(items)
    ensures r == Render(LoginPage) <==> Segments(path) == Some(["login"])
  {
    match Segments(path)
    case None => Redirect(LoginPath)
    case Some(segs) =>
      if segs == ["login"] then Render(LoginPage)
      else if segs != [] && segs[0] == "app" then
        match MatchChild(segs[1..])
        case None => Redirect(LoginPath)
        case Some(child) =>
          match RequireAuth(items)
          case Some(to) => Redirect(to)
          case None =>
            match child
            case Index => Redirect("/app/clientes")
            case ChildPage(p) => Render(p)
      else Redirect(LoginPath)
  }

  /** A path of the table: `/login`, `/app` or one of its children. */
  predicate InTable(path: string)
  {
    Segments(path).Some? &&
    var segs := Segments(path).value;
    segs == ["login"] || (segs != [] && segs[0] == "app" && MatchChild(segs[1..]).Some?)
  }

  /** A private page is only ever shown to a session with a non-empty token. */
  lemma {:induction false} PrivatePagesNeedToken(path: string, items: Items)
    requires Resolve(path, items).Render? && Resolve(path, items).page != LoginPage
    ensures HasToken(items)
  {
  }

  /** Without a token every path of the authenticated area sends the user to the login page. */
  lemma {:induction false} GuardRunsFirst(path: string, items: Items)
    requires InTable(path) && Segments(path).value[0] == "app"
    requires !HasToken(items)
    ensures Resolve(path, items) == Redirect(LoginPath)
  {
  }

  /** The path `/p1/.../pn` of non-empty segments free of `/` has exactly those segments. */
  lemma {:induction false} SegmentsOfJoin(parts: seq<string>)
    requires |parts| >= 1
    requires forall i :: 0 <= i < |parts| ==> parts[i] != "" && '/' !in parts[i]
    ensures Segments("/" + Join(parts, '/')) == Some(parts)
  {
    var j := Join(parts, '/');
    JoinEndsWithLastPart(parts, '/');
    SplitJoin(parts, '/');
    assert ("/" + j)[1..] == j;
    assert j[|j| - 1] in parts[|parts| - 1];
  }

  /** `/login` renders the login page whatever the session holds. */
  lemma LoginIsPublic(items: Items)
    ensures Resolve("/login", items) == Render(LoginPage)
  {
    SegmentsOfJoin(["login"]);
  }

  /** `/app` with a token redirects to the customer list. */
  lemma AppIndexRedirects(items: Items)
    requires HasToken(items)
    ensures Resolve("/app", items) == Redirect("/app/clientes")
  {
    SegmentsOfJoin(["app"]);
    assert ["app"][1..] == [];
  }

  /** A path outside the table redirects to the login page whatever the session holds. */
  lemma {:induction false} UnknownPathsGoToLogin(path: string, items: Items)
    requires !InTable(path)
    ensures Resolve(path, items) == Redirect(LoginPath)
  {
  }

  /** `/operador` is not a route of the table (the operator list lives at
      `/app/operador`), so it lands on the login redirect. */
  lemma OperadorPathIsUnknown(items: Items)
    ensures !InTable("/operador")
    ensures Resolve("/operador", items) == Redirect(LoginPath)
  {
    SegmentsOfJoin(["operador"]);
  }

  /** With a token a page child `/app/<name>` of the table renders its page. */
  lemma {:induction false} AppChildRenders(name: string, items: Items)
    requires name != "" && '/' !in name
    requires HasToken(items)
    requires MatchChild([name]).Some? && MatchChild([name]).value.ChildPage?
    ensures Resolve("/app/" + name, items) == Render(MatchChild([name]).value.page)
  {
    var parts := ["app", name];
    SegmentsOfJoin(parts);
    assert Join(parts[1..], '/') == name;
    assert "/" + Join(parts, '/') == "/app/" + name;
    assert parts[1..] == [name];
  }

  /** With a token the customer list renders. */
  lemma ClientesRenders(items: Items)
    requires HasToken(items)
    ensures Resolve("/app/clientes", items) == Render(ClientesPage)
  {
    AppChildRenders("clientes", items);
    assert "/app/" + "clientes" == "/app/clientes";
  }

  /** With a token the operator list renders. */
  lemma OperadorRenders(items: Items)
    requires HasToken(items)
    ensures Resolve("/app/operador", items) == Render(OperadorPage)
  {
    assert MatchChild(["operador"]) == Some(ChildPage(OperadorPage)) by {
      assert ["operador"] != ["clientes"] by { assert "operador"[0] != "clientes"[0]; }
    }
    AppChildRenders("operador", items);
    assert "/app/" + "operador" == "/app/operador";
  }
}
