/** The operator registration page: an ordered validator, the trimmed payload
    and the error text shown when the server refuses the operator. */
module OperadorCadastro {
  import opened Wrappers
  import opened JsValue
  import opened Http
  import opened Session
  import opened OperadorFields
  import Routes

  datatype Form = Form(nome: string, email: string, senha: string, admin: bool)

  const InitialForm: Form := Form("", "", "", false)

  const NomeObrigatorio: string := "Nome é obrigatório."
  const EmailObrigatorio: string := "E-mail é obrigatório."
  const EmailInvalido: string := "E-mail inválido."
  const SenhaCurta: string := "Senha deve ter pelo menos 4 caracteres."

  /** `handleChange` for the page's inputs: the text inputs `nome`, `email`
      and `senha` set their field to the typed value and the `admin` checkbox
      sets the flag to its checked state; no other field ever changes. */
  function Changed(f: Form, name: string, value: string, isCheckbox: bool, checked: bool): (r: Form)
    ensures r.nome != f.nome ==> !isCheckbox && name == "nome" && r.nome == value
    ensures r.email != f.email ==> !isCheckbox && name == "email" && r.email == value
    ensures r.senha != f.senha ==> !isCheckbox && name == "senha" && r.senha == value
    ensures r.admin != f.admin ==> isCheckbox && name == "admin" && r.admin == checked
    ensures !isCheckbox && name == "nome" ==> r.nome == value
    ensures !isCheckbox && name == "email" ==> r.email == value
    ensures !isCheckbox && name == "senha" ==> r.senha == value
    ensures isCheckbox && name == "admin" ==> r.admin == checked
  {
    if isCheckbox then (if name == "admin" then f.(admin := checked) else f)
    else if name == "nome" then f.(nome := value)
    else if name == "email" then f.(email := value)
    else if name == "senha" then f.(senha := value)
    else f
  }

  // ---------------------------------------------------------------------
  // The e-mail pattern /^[^\s@]+@[^\s@]+\.[^\s@]+$/
  // ---------------------------------------------------------------------

  /** A character of the class `[^\s@]`; `\s` is the same white-space set `trim` removes. */
  predicate Plain(c: char)
  {
    !IsJsSpace(c) && c != '@'
  }

  /** A non-empty run of `[^\s@]`. */
  predicate PlainRun(s: string)
  {
    s != "" && forall k :: 0 <= k < |s| ==> Plain(s[k])
  }

  /** `s` is `a@b.c` with `a`, `b` and `c` plain runs. */
  predicate Splits(s: string, a: string, b: string, c: string)
  {
    s == a + "@" + b + "." + c && PlainRun(a) && PlainRun(b) && PlainRun(c)
  }

  /** What the pattern accepts: some way of cutting the text into `a@b.c`. */
  ghost predicate MatchesPattern(s: string)
  {
    exists a, b, c :: Splits(s, a, b, c)
  }

  /** The position of the first `c` in `s`, or `|s|` when there is none. */
  function IndexOf(s: string, c: char): (i: nat)
    ensures i <= |s|
    ensures i < |s| ==> s[i] == c
    ensures forall k :: 0 <= k < i ==> s[k] != c
  {
    if s == [] then 0
    else if s[0] == c then 0
    else 1 + IndexOf(s[1..], c)
  }

  /** The check as a scan: the text before the first `@` is a plain run, and
      the text after it is a plain run holding a `.` that is neither its
      first nor its last character. */
  function EmailOk(s: string): (r: bool)
    ensures r ==> |s| >= 5
    ensures r ==> IndexOf(s, '@') < |s| && '@' !in s[IndexOf(s, '@') + 1..]
  {
    var i := IndexOf(s, '@');
    if i == |s| then false
    else
      var rest := s[i + 1..];
      PlainRun(s[..i]) && PlainRun(rest) && |rest| >= 3 && '.' in rest[1..|rest| - 1]
  }

  /** The scan accepts exactly what the pattern accepts. */
  lemma EmailOkMatchesPattern(s: string)
    ensures EmailOk(s) <==> MatchesPattern(s)
  {
    if EmailOk(s) {
      ScanFindsSplit(s);
    }
    if MatchesPattern(s) {
      var a, b, c :| Splits(s, a, b, c);
      SplitPassesScan(s, a, b, c);
    }
  }

  lemma ScanFindsSplit(s: string)
    requires EmailOk(s)
    ensures MatchesPattern(s)
  {
    var i := IndexOf(s, '@');
    var rest := s[i + 1..];
    var j :| 0 <= j < |rest[1..|rest| - 1]| && rest[1..|rest| - 1][j] == '.';
    var a, b, c := s[..i], rest[..j + 1], rest[j + 2..];
    assert rest == b + "." + c;
    assert s == a + "@" + rest;
    assert PlainRun(b) by { assert forall k :: 0 <= k < |b| ==> b[k] == rest[k]; }
    assert PlainRun(c) by { assert forall k :: 0 <= k < |c| ==> c[k] == rest[j + 2 + k]; }
    assert Splits(s, a, b, c);
  }

  lemma SplitPassesScan(s: string, a: string, b: string, c: string)
    requires Splits(s, a, b, c)
    ensures EmailOk(s)
  {
    var rest := b + "." + c;
    DottedRun(b, c);
    assert rest[1..|rest| - 1][|b| - 1] == '.';
    assert s == a + ("@" + rest);
    ScanOfParts(a, rest);
  }

  /** The scan accepts a plain run, an `@`, and a plain run with an inner `.`. */
  lemma ScanOfParts(a: string, rest: string)
    requires PlainRun(a) && PlainRun(rest) && |rest| >= 3 && '.' in rest[1..|rest| - 1]
    ensures EmailOk(a + ("@" + rest))
  {
    var s := a + ("@" + rest);
    FirstAfterPlain(a, "@" + rest);
    assert s[..|a|] == a;
    assert s[|a| + 1..] == rest;
  }

  /** The first `@` of `a + t` is the head of `t` when the plain run `a` comes first. */
  lemma FirstAfterPlain(a: string, t: string)
    requires PlainRun(a) && t != [] && t[0] == '@'
    ensures IndexOf(a + t, '@') == |a|
  {
    var s := a + t;
    assert s[|a|] == '@';
    assert forall k :: 0 <= k < |a| ==> s[k] == a[k];
  }

  /** Two plain runs joined by a `.` form a plain run. */
  lemma DottedRun(b: string, c: string)
    requires PlainRun(b) && PlainRun(c)
    ensures PlainRun(b + "." + c)
  {
    var rest := b + "." + c;
    forall k | 0 <= k < |rest|
      ensures Plain(rest[k])
    {
      if k < |b| {
        assert rest[k] == b[k];
      } else if k > |b| {
        assert rest[k] == c[k - |b| - 1];
      }
    }
  }

  /** A text the pattern accepts has no white space, so trimming keeps it. */
  lemma TrimKeepsValidEmail(s: string)
    requires EmailOk(s)
    ensures Trim(s) == s
  {
    var i := IndexOf(s, '@');
    assert s == s[..i] + "@" + s[i + 1..];
    forall k | 0 <= k < |s|
      ensures !IsJsSpace(s[k])
    {
      if k < i {
        assert s[k] == s[..i][k];
      } else if k > i {
        assert s[k] == s[i + 1..][k - i - 1];
      }
    }
  }

  // ---------------------------------------------------------------------
  // Validation
  // ---------------------------------------------------------------------

  /** `!form.senha || form.senha.length < 4`, with JavaScript's UTF-16 length. */
  predicate SenhaTooShort(senha: string)
  {
    senha == "" || Utf16Length(senha) < 4
  }

  /** `validate()`: the first failing rule's message, `None` when all pass. */
  function Validate(f: Form): (r: Option<string>)
    ensures r.None? <==> Trim(f.nome) != "" && Trim(f.email) != "" && EmailOk(f.email) && !SenhaTooShort(f.senha)
    ensures r.Some? ==> r.value in [NomeObrigatorio, EmailObrigatorio, EmailInvalido, SenhaCurta]
  {
    if Trim(f.nome) == "" then Some(NomeObrigatorio)
    else if Trim(f.email) == "" then Some(EmailObrigatorio)
    else if !EmailOk(f.email) then Some(EmailInvalido)
    else if SenhaTooShort(f.senha) then Some(SenhaCurta)
    else None
  }

  /** The rules are checked in order (blank name, blank e-mail, the e-mail
      pattern, the password length) and the first failing one is reported. */
  lemma ValidateOrder(f: Form)
    ensures Validate(f) == Some(NomeObrigatorio) <==> Trim(f.nome) == ""
    ensures Validate(f) == Some(EmailObrigatorio) <==> Trim(f.nome) != "" && Trim(f.email) == ""
    ensures Validate(f) == Some(EmailInvalido) <==>
      Trim(f.nome) != "" && Trim(f.email) != "" && !MatchesPattern(f.email)
    ensures Validate(f) == Some(SenhaCurta) <==>
      Trim(f.nome) != "" && Trim(f.email) != "" && MatchesPattern(f.email) && SenhaTooShort(f.senha)
    ensures Validate(f).None? <==>
      Trim(f.nome) != "" && Trim(f.email) != "" && MatchesPattern(f.email) && !SenhaTooShort(f.senha)
  {
    EmailOkMatchesPattern(f.email);
  }

  /** Fewer than four UTF-16 units, the empty password included, are refused. */
  lemma ShortPasswordRefused(f: Form)
    requires Trim(f.nome) != "" && MatchesPattern(f.email)
    requires Utf16Length(f.senha) < 4
    ensures Validate(f) == Some(SenhaCurta)
  {
    EmailOkMatchesPattern(f.email);
    TrimKeepsValidEmail(f.email);
  }

  /** A form that validates has a valid e-mail that trimming keeps, and a
      password of at least four characters. */
  lemma ValidFormFacts(f: Form)
    requires Validate(f).None?
    ensures MatchesPattern(f.email) && Trim(f.email) == f.email
    ensures |f.senha| >= 2 && Utf16Length(f.senha) >= 4
  {
    EmailOkMatchesPattern(f.email);
    TrimKeepsValidEmail(f.email);
  }

  /** Ticking or clearing the `admin` box never changes what validation reports. */
  lemma AdminToggleKeepsValidation(f: Form, value: string, checked: bool)
    ensures Validate(Changed(f, "admin", value, true, checked)) == Validate(f)
  {
  }

  // ---------------------------------------------------------------------
  // Submitting
  // ---------------------------------------------------------------------

  /** `{ "Content-Type": ..., ...(token ? { Authorization } : {}) }`. */
  function CreateHeaders(token: Option<string>): (h: map<string, string>)
    ensures "Authorization" in h <==> Present(token)
    ensures Present(token) ==> h["Authorization"] == "Bearer " + token.value
    ensures "Content-Type" in h && h["Content-Type"] == ContentTypeJson
  {
    var base := map["Content-Type" := ContentTypeJson];
    if Present(token) then base["Authorization" := "Bearer " + token.value] else base
  }

  /** The body: `nome` and `email` trimmed, `senha` and `admin` as typed. */
  function Payload(f: Form): (r: Value)
    ensures r.Obj?
    ensures Lookup(r.members, "nome") == Str(Trim(f.nome)) && Lookup(r.members, "email") == Str(Trim(f.email))
    ensures Lookup(r.members, "senha") == Str(f.senha) && Lookup(r.members, "admin") == Bool(f.admin)
  {
    FieldsLookup(Str(Trim(f.nome)), Str(Trim(f.email)), Str(f.senha), Bool(f.admin));
    Obj(Fields(Str(Trim(f.nome)), Str(Trim(f.email)), Str(f.senha), Bool(f.admin)))
  }

  function CreateRequest(apiUrl: string, token: Option<string>, f: Form): Request
  {
    Request(POST, apiUrl + "/operador/cad", CreateHeaders(token), Payload(f))
  }

  /** `body?.message || body?.error || \`HTTP ${res.status}\``, as the `Error` message. */
  function ErrorText(body: Value, status: int): (r: string)
    ensures Truthy(OptGet(body, "message")) ==> r == JsString(OptGet(body, "message"))
    ensures !Truthy(OptGet(body, "message")) && Truthy(OptGet(body, "error")) ==> r == JsString(OptGet(body, "error"))
    ensures !Truthy(OptGet(body, "message")) && !Truthy(OptGet(body, "error")) ==> r == "HTTP " + IntToString(status)
  {
    JsString(Or(Or(OptGet(body, "message"), OptGet(body, "error")), Str("HTTP " + IntToString(status))))
  }

  datatype Outcome =
    | Invalid(warning: string)   // the validator's message; nothing is sent
    | Created(navigateTo: string)
    | Refused(message: string)   // the thrown `Error`'s `message`, shown after "Erro ao cadastrar operador: "
    | Unreachable                // `fetch` rejected
    | Pending

  datatype Run = Run(sent: seq<Request>, outcome: Outcome)

  /** Where the page goes after a successful creation, as written. */
  const AfterCreate: string := "/operador"

  /** The operator list's path in the route table. */
  const OperatorListPath: string := "/app/operador"

  /** `handleSubmit`, navigating to `target` on success. */
  function SubmitTo(apiUrl: string, token: Option<string>, f: Form, server: Server, target: string): (r: Run)
    ensures Validate(f).Some? ==> r == Run([], Invalid(Validate(f).value))
    ensures Validate(f).None? ==> r.sent == [CreateRequest(apiUrl, token, f)]
    ensures Validate(f).None? && AnsweredOk(server, 0) ==> r.outcome == Created(target)
    ensures r.outcome.Created? ==> AnsweredOk(server, 0) && r.outcome.navigateTo == target
    ensures Validate(f).None? && server != [] && server[0].Answered? && !Ok(server[0].response) ==>
      r.outcome == Refused(ErrorText(server[0].response.json.GetOr(Null), server[0].response.status))
    ensures Validate(f).None? && server != [] && server[0].NetworkError? ==> r.outcome == Unreachable
    ensures r.outcome.Invalid? <==> Validate(f).Some?
    ensures r.outcome.Pending? <==> Validate(f).None? && server == []
  {
    match Validate(f)
    case Some(msg) => Run([], Invalid(msg))
    case None =>
      var req := CreateRequest(apiUrl, token, f);
      if server == [] then Run([req], Pending)
      else match server[0]
        case NetworkError => Run([req], Unreachable)
        case Answered(res) =>
          if Ok(res) then Run([req], Created(target))
          else Run([req], Refused(ErrorText(res.json.GetOr(Null), res.status)))
  }

  /** The handler as written. */
  function Submit(apiUrl: string, token: Option<string>, f: Form, server: Server): Run
  {
    SubmitTo(apiUrl, token, f, server, AfterCreate)
  }

  /** The handler navigating to the operator list as the comment beside it intends. */
  function SubmitIntended(apiUrl: string, token: Option<string>, f: Form, server: Server): Run
  {
    SubmitTo(apiUrl, token, f, server, OperatorListPath)
  }

  /** As written, a successful creation lands on the login redirect, even for a
      session holding a token. */
  lemma CreatedLandsOnLogin(apiUrl: string, token: Option<string>, f: Form, server: Server, items: Items)
    requires Submit(apiUrl, token, f, server).outcome.Created?
    ensures Routes.Resolve(Submit(apiUrl, token, f, server).outcome.navigateTo, items) == Routes.Redirect(Routes.LoginPath)
  {
    Routes.OperadorPathIsUnknown(items);
  }

  /** Navigating to the table's path instead shows the operator list to a signed-in session. */
  lemma IntendedShowsOperatorList(apiUrl: string, token: Option<string>, f: Form, server: Server, items: Items)
    requires SubmitIntended(apiUrl, token, f, server).outcome.Created? && HasToken(items)
    ensures Routes.Resolve(SubmitIntended(apiUrl, token, f, server).outcome.navigateTo, items) == Routes.Render(Routes.OperadorPage)
  {
    Routes.OperadorRenders(items);
  }

  /** The submit handler with its `submitting` flag, which stays raised while
      the request is pending and is lowered in `finally`. */
  class OperadorCadastroPage {
    var form: Form
    var submitting: bool
    const apiUrl: string

    constructor (apiUrl: string)
      ensures form == InitialForm && !submitting && this.apiUrl == apiUrl
    {
      form := InitialForm;
      submitting := false;
      this.apiUrl := apiUrl;
    }

    method HandleChange(name: string, value: string, isCheckbox: bool, checked: bool)
      modifies this`form
      ensures form == Changed(old(form), name, value, isCheckbox, checked)
    {
      form := Changed(form, name, value, isCheckbox, checked);
    }

    method HandleSubmit(token: Option<string>, server: Server) returns (sent: seq<Request>, outcome: Outcome)
      modifies this`submitting
      ensures Run(sent, outcome) == Submit(apiUrl, token, form, server)
      ensures Validate(form).Some? ==> submitting == old(submitting)
      ensures Validate(form).None? ==> (submitting <==> |server| == 0)
    {
      var err := Validate(form);
      if err.Some? {
        return [], Invalid(err.value);
      }
      submitting := true;
      var req := CreateRequest(apiUrl, token, form);
      sent := [req];
      if |server| == 0 {
        return sent, Pending;
      }
      match server[0] {
        case NetworkError =>
          outcome := Unreachable;
        case Answered(res) =>
          if Ok(res) {
            outcome := Created(AfterCreate);
          } else {
            var body := res.json.GetOr(Null);
            outcome := Refused(ErrorText(body, res.status));
          }
      }
      submitting := false;
    }
  }
}
