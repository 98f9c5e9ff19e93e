/** The operator edit page: it loads the operator into a form whose password
    starts blank, edits one field at a time, and saves with a PUT that leaves
    the password out when it is blank. */
module OperadorEditar {
  import opened Wrappers
  import opened JsValue
  import opened Http
  import opened Session
  import opened OperadorFields
  import Routes

  /** The form state: a plain object, replaced by a spread copy on each change. */
  type FormState = seq<Member>

  /** The keys of the form, in the order the page declares them. */
  const FormKeys: seq<string> := ["nome", "email", "senha", "admin"]

  const InitialForm: FormState := Fields(Str(""), Str(""), Str(""), Bool(false))

  /** Such a form has the page's keys, binds each to its value, and loses only
      the password to `delete`. */
  lemma FieldsShape(nome: Value, email: Value, senha: Value, admin: Value)
    ensures Keys(Fields(nome, email, senha, admin)) == FormKeys
    ensures Lookup(Fields(nome, email, senha, admin), "nome") == nome
    ensures Lookup(Fields(nome, email, senha, admin), "email") == email
    ensures Lookup(Fields(nome, email, senha, admin), "senha") == senha
    ensures Lookup(Fields(nome, email, senha, admin), "admin") == admin
    ensures DeleteMember(Fields(nome, email, senha, admin), "senha") ==
      [Member("nome", nome), Member("email", email), Member("admin", admin)]
  {
    FieldsKeys(nome, email, senha, admin);
    FieldsLookup(nome, email, senha, admin);
    FieldsDelete(nome, email, senha, admin);
  }

  lemma FieldsKeys(nome: Value, email: Value, senha: Value, admin: Value)
    ensures Keys(Fields(nome, email, senha, admin)) == FormKeys
  {
    var last := [Member("admin", admin)];
    var tail := [Member("senha", senha)] + last;
    assert Fields(nome, email, senha, admin) == [Member("nome", nome)] + ([Member("email", email)] + tail);
    TailShape(Member("nome", nome), [Member("email", email)] + tail);
    TailShape(Member("email", email), tail);
    TailShape(Member("senha", senha), last);
    TailShape(Member("admin", admin), []);
  }

  lemma FieldsDelete(nome: Value, email: Value, senha: Value, admin: Value)
    ensures DeleteMember(Fields(nome, email, senha, admin), "senha") ==
      [Member("nome", nome), Member("email", email), Member("admin", admin)]
  {
    var last := [Member("admin", admin)];
    var tail := [Member("senha", senha)] + last;
    assert Fields(nome, email, senha, admin) == [Member("nome", nome)] + ([Member("email", email)] + tail);
    TailShape(Member("nome", nome), [Member("email", email)] + tail);
    TailShape(Member("email", email), tail);
    TailShape(Member("senha", senha), last);
    TailShape(Member("admin", admin), []);
  }

  /** Unfolding `Keys` and `DeleteMember` at the head of the members. */
  lemma TailShape(m: Member, rest: seq<Member>)
    ensures Keys([m] + rest) == [m.key] + Keys(rest)
    ensures m.key != "senha" ==> DeleteMember([m] + rest, "senha") == [m] + DeleteMember(rest, "senha")
    ensures m.key == "senha" ==> DeleteMember([m] + rest, "senha") == DeleteMember(rest, "senha")
  {
    assert ([m] + rest)[1..] == rest;
  }

  /** Where the page goes when the route id or the token is missing. */
  const AfterMissing: string := "/operador"

  /** The operator list's path in the route table. */
  const OperatorListPath: string := "/app/operador"

  // ---------------------------------------------------------------------
  // Loading the operator
  // ---------------------------------------------------------------------

  datatype LoadOutcome =
    | Redirected(path: string)  // id or token missing: error toast, no fetch
    | Loaded(form: FormState)
    | LoadFailed                // "Erro ao carregar operador", back to the operator list
    | Loading                   // the fetch has not completed

  datatype Load = Load(sent: seq<Request>, outcome: LoadOutcome)

  function FetchRequest(apiUrl: string, id: string, token: Option<string>): Request
  {
    Request(GET, apiUrl + "/operador/pesquisa/" + id, map["Authorization" := Bearer(token)], Undefined)
  }

  /** The form set from the body `{ data: operador }`, or `None` where reading
      `data.data` or `operador.nome` throws. Name and e-mail default to `""`,
      the flag to `false`, and the stored password is never loaded. */
  function LoadedForm(body: Value): (r: Option<FormState>)
    ensures r.Some? <==> !IsNullish(body) && !IsNullish(OptGet(body, "data"))
    ensures r.Some? ==> Keys(r.value) == FormKeys
    ensures r.Some? ==> Lookup(r.value, "senha") == Str("")
    ensures r.Some? ==>
      var op := OptGet(body, "data");
      && (Truthy(OptGet(op, "nome")) ==> Lookup(r.value, "nome") == OptGet(op, "nome"))
      && (!Truthy(OptGet(op, "nome")) ==> Lookup(r.value, "nome") == Str(""))
      && (Truthy(OptGet(op, "email")) ==> Lookup(r.value, "email") == OptGet(op, "email"))
      && (!Truthy(OptGet(op, "email")) ==> Lookup(r.value, "email") == Str(""))
      && (Truthy(OptGet(op, "admin")) ==> Lookup(r.value, "admin") == OptGet(op, "admin"))
      && (!Truthy(OptGet(op, "admin")) ==> Lookup(r.value, "admin") == Bool(false))
  {
    match Get(body, "data")
    case None => None
    case Some(op) =>
      if IsNullish(op) then None
      else
        var nome, email, admin := Or(OptGet(op, "nome"), Str("")), Or(OptGet(op, "email"), Str("")), Or(OptGet(op, "admin"), Bool(false));
        FieldsShape(nome, email, Str(""), admin);
        Some(Fields(nome, email, Str(""), admin))
  }

  /** The effect that loads the operator, going to `missingPath` when the id
      or the token is missing. */
  function LoadTo(apiUrl: string, id: Option<string>, token: Option<string>, server: Server, missingPath: string): (r: Load)
    ensures !Present(id) || !Present(token) ==> r == Load([], Redirected(missingPath))
    ensures Present(id) && Present(token) ==> r.sent == [FetchRequest(apiUrl, id.value, token)]
    ensures r.outcome.Loaded? <==>
      && Present(id) && Present(token) && AnsweredOk(server, 0)
      && server[0].response.json.Some? && LoadedForm(server[0].response.json.value).Some?
    ensures r.outcome.Loaded? ==> Some(r.outcome.form) == LoadedForm(server[0].response.json.value)
    ensures r.outcome.Redirected? <==> !Present(id) || !Present(token)
    ensures r.outcome.Loading? <==> Present(id) && Present(token) && server == []
    ensures r.outcome.LoadFailed? <==>
      && Present(id) && Present(token) && server != []
      && !(AnsweredOk(server, 0) && server[0].response.json.Some? && LoadedForm(server[0].response.json.value).Some?)
  {
    if !Present(id) || !Present(token) then Load([], Redirected(missingPath))
    else
      var req := FetchRequest(apiUrl, id.value, token);
      if server == [] then Load([req], Loading)
      else if server[0].NetworkError? || !Ok(server[0].response) then Load([req], LoadFailed)
      else match server[0].response.json
        case None => Load([req], LoadFailed)
        case Some(body) =>
          match LoadedForm(body)
          case None => Load([req], LoadFailed)
          case Some(f) => Load([req], Loaded(f))
  }

  /** The effect as written. */
  function LoadOperador(apiUrl: string, id: Option<string>, token: Option<string>, server: Server): Load
  {
    LoadTo(apiUrl, id, token, server, AfterMissing)
  }

  /** The effect going back to the operator list, as the failed load does. */
  function LoadIntended(apiUrl: string, id: Option<string>, token: Option<string>, server: Server): Load
  {
    LoadTo(apiUrl, id, token, server, OperatorListPath)
  }

  /** As written, a missing route id sends even a signed-in session to the
      login redirect, since `/operador` is not in the route table. */
  lemma MissingIdLandsOnLogin(apiUrl: string, token: Option<string>, server: Server, items: Items)
    ensures LoadOperador(apiUrl, None, token, server) == Load([], Redirected(AfterMissing))
    ensures Routes.Resolve(AfterMissing, items) == Routes.Redirect(Routes.LoginPath)
  {
    Routes.OperadorPathIsUnknown(items);
  }

  /** Going to the table's path instead shows the operator list to a signed-in session. */
  lemma IntendedMissingIdShowsList(apiUrl: string, token: Option<string>, server: Server, items: Items)
    requires HasToken(items)
    ensures LoadIntended(apiUrl, None, token, server) == Load([], Redirected(OperatorListPath))
    ensures Routes.Resolve(OperatorListPath, items) == Routes.Render(Routes.OperadorPage)
  {
    Routes.OperadorRenders(items);
  }

  // ---------------------------------------------------------------------
  // Editing
  // ---------------------------------------------------------------------

  /** `handleChange`: the named input's value, or its checked state for a
      checkbox, replaces that field; every other field is kept. */
  function Changed(form: FormState, name: string, value: string, isCheckbox: bool, checked: bool): (r: FormState)
    ensures Lookup(r, name) == if isCheckbox then Bool(checked) else Str(value)
    ensures forall k :: k != name ==> Lookup(r, k) == Lookup(form, k)
    ensures HasKey(form, name) ==> Keys(r) == Keys(form)
    ensures !HasKey(form, name) ==> Keys(r) == Keys(form) + [name]
  {
    var v := if isCheckbox then Bool(checked) else Str(value);
    SetMemberKeys(form, name, v);
    SetMember(form, name, v)
  }

  // ---------------------------------------------------------------------
  // Saving
  // ---------------------------------------------------------------------

  /** `{ ...form }` without `senha` when `senha?.trim() === ""`; `None` where
      the `trim` call throws (a `senha` that is neither a string nor nullish). */
  function Payload(form: FormState): (r: Option<FormState>)
    ensures r.None? <==> !IsNullish(Lookup(form, "senha")) && !Lookup(form, "senha").Str?
    ensures Lookup(form, "senha").Str? && AllSpace(Lookup(form, "senha").s) ==>
      r.Some? && !HasKey(r.value, "senha")
    ensures IsNullish(Lookup(form, "senha")) || (Lookup(form, "senha").Str? && !AllSpace(Lookup(form, "senha").s)) ==>
      r == Some(form)
    ensures r.Some? ==> forall k :: k != "senha" ==> Lookup(r.value, k) == Lookup(form, k)
  {
    var senha := Lookup(form, "senha");
    if IsNullish(senha) then Some(form)
    else match TrimValue(senha)
      case None => None
      case Some(t) => if t == "" then Some(DeleteMember(form, "senha")) else Some(form)
  }

  function JsonHeaders(token: Option<string>): map<string, string>
  {
    map["Content-Type" := ContentTypeJson, "Authorization" := Bearer(token)]
  }

  function UpdateRequest(apiUrl: string, id: string, token: Option<string>, payload: FormState): Request
  {
    Request(PUT, apiUrl + "/operador/edit/" + id, JsonHeaders(token), Obj(payload))
  }

  datatype SubmitOutcome =
    | Skipped                 // id or token missing: nothing happens
    | Updated(navigateTo: string)
    | UpdateFailed            // "Erro ao atualizar operador"
    | Pending                 // the request has not settled

  datatype Run = Run(sent: seq<Request>, outcome: SubmitOutcome)

  /** `handleSubmit`. */
  function Submit(apiUrl: string, id: Option<string>, token: Option<string>, form: FormState, server: Server): (r: Run)
    ensures !Present(id) || !Present(token) ==> r == Run([], Skipped)
    ensures Present(id) && Present(token) && Payload(form).Some? ==>
      r.sent == [UpdateRequest(apiUrl, id.value, token, Payload(form).value)]
    ensures Payload(form).None? ==> r.sent == []
    ensures r.outcome.Updated? <==> Present(id) && Present(token) && Payload(form).Some? && AnsweredOk(server, 0)
    ensures r.outcome.Updated? ==> r.outcome.navigateTo == OperatorListPath
    ensures r.outcome.Skipped? <==> !Present(id) || !Present(token)
    ensures r.outcome.Pending? <==> Present(id) && Present(token) && Payload(form).Some? && server == []
    ensures r.outcome.UpdateFailed? <==>
      Present(id) && Present(token) && (Payload(form).None? || (server != [] && !AnsweredOk(server, 0)))
  {
    if !Present(id) || !Present(token) then Run([], Skipped)
    else match Payload(form)
      case None => Run([], UpdateFailed)
      case Some(payload) =>
        var req := UpdateRequest(apiUrl, id.value, token, payload);
        if server == [] then Run([req], Pending)
        else if AnsweredOk(server, 0) then Run([req], Updated(OperatorListPath))
        else Run([req], UpdateFailed)
  }

  /** A freshly loaded form saves name, e-mail and flag and leaves the
      password out, so the stored one is kept. */
  lemma LoadedPasswordNotSent(apiUrl: string, id: string, token: Option<string>, body: Value, server: Server)
    requires id != "" && Present(token) && LoadedForm(body).Some?
    ensures var f := LoadedForm(body).value;
      Submit(apiUrl, Some(id), token, f, server).sent ==
        [UpdateRequest(apiUrl, id, token, [Member("nome", Lookup(f, "nome")), Member("email", Lookup(f, "email")), Member("admin", Lookup(f, "admin"))])]
  {
    var op := OptGet(body, "data");
    var nome, email, admin := Or(OptGet(op, "nome"), Str("")), Or(OptGet(op, "email"), Str("")), Or(OptGet(op, "admin"), Bool(false));
    assert LoadedForm(body).value == Fields(nome, email, Str(""), admin);
    BlankPasswordPayload(nome, email, admin);
  }

  /** With an empty password the payload is the other three members, in order. */
  lemma BlankPasswordPayload(nome: Value, email: Value, admin: Value)
    ensures Payload(Fields(nome, email, Str(""), admin))
            == Some([Member("nome", nome), Member("email", email), Member("admin", admin)])
  {
    FieldsLookup(nome, email, Str(""), admin);
    FieldsDelete(nome, email, Str(""), admin);
  }

  /** A password typed into the form is sent as typed, without trimming, and
      every other field goes out as it is in the form. */
  lemma TypedPasswordSentAsTyped(apiUrl: string, id: string, token: Option<string>, form: FormState, senha: string, server: Server)
    requires id != "" && Present(token) && !AllSpace(senha)
    ensures var f := Changed(form, "senha", senha, false, false);
      && Submit(apiUrl, Some(id), token, f, server).sent == [UpdateRequest(apiUrl, id, token, f)]
      && Lookup(f, "senha") == Str(senha)
      && forall k :: k != "senha" ==> Lookup(f, k) == Lookup(form, k)
  {
  }

  /** Editing one field of a loaded form keeps the form's four keys. */
  lemma EditingKeepsFormKeys(form: FormState, name: string, value: string, isCheckbox: bool, checked: bool)
    requires Keys(form) == FormKeys && name in FormKeys
    ensures Keys(Changed(form, name, value, isCheckbox, checked)) == FormKeys
  {
    assert HasKey(form, name) by {
      var i :| 0 <= i < |FormKeys| && FormKeys[i] == name;
      KeysIndex(form, i);
    }
  }

  /** The key at position `i` of `Keys(ms)` is the key of the `i`-th member. */
  lemma {:induction false} KeysIndex(ms: seq<Member>, i: nat)
    requires i < |Keys(ms)|
    ensures i < |ms| && Keys(ms)[i] == ms[i].key
  {
    if i > 0 {
      KeysIndex(ms[1..], i - 1);
    }
  }

  /** The page with its state fields; `id` is the route parameter and `token`
      the one read from storage when the page renders. */
  class OperadorEditarPage {
    var form: FormState
    var loading: bool
    var submitting: bool
    const apiUrl: string
    const id: Option<string>
    const token: Option<string>

    constructor (apiUrl: string, id: Option<string>, items: Items)
      ensures this.apiUrl == apiUrl && this.id == id && token == Read(items, TokenKey)
      ensures form == InitialForm && loading && !submitting
    {
      this.apiUrl := apiUrl;
      this.id := id;
      token := Read(items, TokenKey);
      form := InitialForm;
      loading := true;
      submitting := false;
    }

    /** The loading effect; `loading` is lowered in `finally` once the fetch settles. */
    method Mount(server: Server) returns (sent: seq<Request>, outcome: LoadOutcome)
      modifies this`form, this`loading
      ensures Load(sent, outcome) == LoadOperador(apiUrl, id, token, server)
      ensures outcome.Loaded? ==> form == outcome.form
      ensures !outcome.Loaded? ==> form == old(form)
      ensures loading <==> old(loading) && (outcome.Redirected? || outcome.Loading?)
    {
      if !Present(id) || !Present(token) {
        return [], Redirected(AfterMissing);
      }
      sent := [FetchRequest(apiUrl, id.value, token)];
      if |server| == 0 {
        return sent, Loading;
      }
      outcome := LoadFailed;
      if server[0].Answered? && Ok(server[0].response) && server[0].response.json.Some? {
        var loaded := LoadedForm(server[0].response.json.value);
        if loaded.Some? {
          form := loaded.value;
          outcome := Loaded(loaded.value);
        }
      }
      loading := false;
    }

    method HandleChange(name: string, value: string, isCheckbox: bool, checked: bool)
      modifies this`form
      ensures form == Changed(old(form), name, value, isCheckbox, checked)
    {
      form := Changed(form, name, value, isCheckbox, checked);
    }

    /** The submit handler; `submitting` stays raised while the request is pending. */
    method HandleSubmit(server: Server) returns (sent: seq<Request>, outcome: SubmitOutcome)
      modifies this`submitting
      ensures Run(sent, outcome) == Submit(apiUrl, id, token, form, server)
      ensures outcome.Skipped? ==> submitting == old(submitting)
      ensures !outcome.Skipped? ==> (submitting <==> outcome.Pending?)
    {
      if !Present(id) || !Present(token) {
        return [], Skipped;
      }
      submitting := true;
      var payload := Payload(form);
      if payload.None? {
        submitting := false;
        return [], UpdateFailed;
      }
      sent := [UpdateRequest(apiUrl, id.value, token, payload.value)];
      if |server| == 0 {
        return sent, Pending;
      }
      if AnsweredOk(server, 0) {
        outcome := Updated(OperatorListPath);
      } else {
        outcome := UpdateFailed;
      }
      submitting := false;
    }
  }
}
