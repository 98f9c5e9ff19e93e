/** The customer edit page: it loads the customer and their vehicles, lets the
    vehicle list be edited (deleting stored vehicles on the server at once),
    and saves with a PUT of the customer followed by one PUT or POST per
    vehicle that is not blank. Response statuses are never inspected. */
module ClienteEditar {
  import opened Wrappers
  import opened JsValue
  import opened Http
  import Lists

  /** A vehicle row. Rows loaded from the server hold whatever the server sent,
      so every property is a JavaScript value; `idCarro` is `Undefined` for a
      row added on the page. */
  datatype Carro = Carro(idCarro: Value, modelo: Value, placa: Value, cor: Value)

  /** `nome` is copied from the loaded record as is; the date is always text. */
  datatype Form = Form(nome: Value, dtNascimento: string, carros: seq<Carro>)

  const EmptyForm: Form := Form(Str(""), "", [])

  const NewCarro: Carro := Carro(Undefined, Str(""), Str(""), Str(""))

  /** A route parameter in a template literal: `undefined` when absent. */
  function ParamText(p: Option<string>): string
  {
    match p
    case Some(s) => s
    case None => "undefined"
  }

  /** `Number(id_cliente)` as it reaches the JSON body: NaN is written as `null`. */
  function NumericId(id: Option<string>): (r: Value)
    ensures r.Num? || r == Null
    ensures id.Some? && NumberFromString(id.value).Some? ==> r == Num(NumberFromString(id.value).value)
  {
    match id
    case None => Null
    case Some(s) =>
      match NumberFromString(s)
      case Some(n) => Num(n)
      case None => Null
  }

  // ---------------------------------------------------------------------
  // Loading
  // ---------------------------------------------------------------------

  /** `${parts[i]}` after destructuring: a missing element prints as `undefined`. */
  function PartText(parts: seq<string>, i: nat): string
  {
    if i < |parts| then parts[i] else "undefined"
  }

  /** The stored `dd/mm/yyyy` date rewritten as `yyyy-mm-dd` for the date input. */
  function DateForInput(stored: string): string
  {
    var parts := Split(stored, '/');
    PartText(parts, 2) + "-" + PartText(parts, 1) + "-" + PartText(parts, 0)
  }

  /** The reverse reading: split on `-`, reverse, join with `/`. */
  function InputToDate(input: string): string
  {
    var parts := Split(input, '-');
    Join(Reversed(parts), '/')
  }

  function Reversed<T>(s: seq<T>): (r: seq<T>)
    ensures |r| == |s|
    ensures forall i :: 0 <= i < |s| ==> r[i] == s[|s| - 1 - i]
  {
    if s == [] then [] else Reversed(s[1..]) + [s[0]]
  }

  /** A date `D/M/Y` whose parts contain neither separator becomes `Y-M-D`, and
      splitting that on `-` and reversing gives the original back. */
  lemma {:induction false} DateRoundTrip(d: string, m: string, y: string)
    requires '/' !in d && '/' !in m && '/' !in y
    requires '-' !in d && '-' !in m && '-' !in y
    ensures DateForInput(d + "/" + m + "/" + y) == y + "-" + m + "-" + d
    ensures Split(DateForInput(d + "/" + m + "/" + y), '-') == [y, m, d]
    ensures InputToDate(DateForInput(d + "/" + m + "/" + y)) == d + "/" + m + "/" + y
  {
    assert Join([d, m, y], '/') == d + "/" + m + "/" + y by {
      assert Join([d, m, y][1..], '/') == m + "/" + y by {
        assert [d, m, y][1..] == [m, y];
        assert [m, y][1..] == [y];
      }
    }
    SplitJoin([d, m, y], '/');
    assert Join([y, m, d], '-') == y + "-" + m + "-" + d by {
      assert Join([y, m, d][1..], '-') == m + "-" + d by {
        assert [y, m, d][1..] == [m, d];
        assert [m, d][1..] == [d];
      }
    }
    SplitJoin([y, m, d], '-');
    assert Reversed([y, m, d]) == [d, m, y];
  }

  /** One loaded vehicle: `id_carro`, `modelo` and `placa` as sent, `cor || ""`.
      Reading a property of a `null` or missing row throws. */
  function LoadedCarro(item: Value): (r: Option<Carro>)
    ensures r.Some? <==> !IsNullish(item)
  {
    if IsNullish(item) then None
    else Some(Carro(OptGet(item, "id_carro"), OptGet(item, "modelo"),
                    OptGet(item, "placa"), Or(OptGet(item, "cor"), Str(""))))
  }

  function LoadedItems(items: seq<Value>): (r: Option<seq<Carro>>)
    ensures r.Some? <==> forall i :: 0 <= i < |items| ==> !IsNullish(items[i])
    ensures r.Some? ==> |r.value| == |items|
    ensures r.Some? ==> forall i :: 0 <= i < |items| ==>
      r.value[i] == Carro(OptGet(items[i], "id_carro"), OptGet(items[i], "modelo"),
                          OptGet(items[i], "placa"), Or(OptGet(items[i], "cor"), Str("")))
  {
    if items == [] then Some([])
    else
      var first := LoadedCarro(items[0]);
      var rest := LoadedItems(items[1..]);
      if first.None? || rest.None? then None
      else Some([first.value] + rest.value)
  }

  /** `c.carros?.map(...) || []`: no list gives no vehicles, an array is mapped
      row by row, and anything else (which has no `map`) throws. */
  function LoadedCarros(carros: Value): (r: Option<seq<Carro>>)
    ensures IsNullish(carros) ==> r == Some([])
    ensures carros.Arr? ==> r == LoadedItems(carros.items)
    ensures !IsNullish(carros) && !carros.Arr? ==> r.None?
  {
    match carros
    case Undefined => Some([])
    case Null => Some([])
    case Arr(items) => LoadedItems(items)
    case _ => None
  }

  datatype LoadOutcome =
    | Redirected        // id or token missing: error toast, back to the list, no fetch
    | Loaded(form: Form)
    | LoadFailed        // "Erro ao carregar dados", back to the list
    | Loading           // the fetch has not completed

  datatype Load = Load(sent: seq<Request>, outcome: LoadOutcome)

  function FetchRequest(apiUrl: string, id: string, token: Option<string>): Request
  {
    Request(GET, apiUrl + "/cliente/pesquisa/" + id, map["Authorization" := Bearer(token)], Undefined)
  }

  /** The form built from the parsed body, or `None` where the code throws. */
  function FormOf(body: Value): (r: Option<Form>)
    ensures r.Some? <==>
      !IsNullish(body) && !IsNullish(OptGet(body, "data"))
      && OptGet(OptGet(body, "data"), "dt_nascimento").Str?
      && LoadedCarros(OptGet(OptGet(body, "data"), "carros")).Some?
    ensures r.Some? ==> var c := OptGet(body, "data");
      && r.value.nome == OptGet(c, "nome")
      && r.value.dtNascimento == DateForInput(OptGet(c, "dt_nascimento").s)
      && Some(r.value.carros) == LoadedCarros(OptGet(c, "carros"))
  {
    match Get(body, "data")
    case None => None
    case Some(c) =>
      match Get(c, "dt_nascimento")
      case None => None
      case Some(date) =>
        if !date.Str? then None
        else match LoadedCarros(OptGet(c, "carros"))
          case None => None
          case Some(carros) => Some(Form(OptGet(c, "nome"), DateForInput(date.s), carros))
  }

  /** The effect that loads the customer when the page opens. */
  function LoadCustomer(apiUrl: string, id: Option<string>, token: Option<string>, server: Server): (r: Load)
    ensures !Present(id) || !Present(token) ==> r == Load([], Redirected)
    ensures Present(id) && Present(token) ==> r.sent == [FetchRequest(apiUrl, id.value, token)]
    ensures r.outcome.Loaded? <==>
      Present(id) && Present(token) && AnsweredOk(server, 0) && server[0].response.json.Some?
      && FormOf(server[0].response.json.value).Some?
    ensures r.outcome.Loaded? ==> Some(r.outcome.form) == FormOf(server[0].response.json.value)
    ensures r.outcome.Loading? <==> Present(id) && Present(token) && server == []
    ensures r.outcome.Redirected? <==> !Present(id) || !Present(token)
    ensures r.outcome.LoadFailed? <==>
      && Present(id) && Present(token) && server != []
      && !(AnsweredOk(server, 0) && server[0].response.json.Some? && FormOf(server[0].response.json.value).Some?)
  {
    if !Present(id) || !Present(token) then Load([], Redirected)
    else
      var req := FetchRequest(apiUrl, id.value, token);
      if server == [] then Load([req], Loading)
      else if server[0].NetworkError? || !Ok(server[0].response) then Load([req], LoadFailed)
      else match server[0].response.json
        case None => Load([req], LoadFailed)
        case Some(body) =>
          match FormOf(body)
          case None => Load([req], LoadFailed)
          case Some(f) => Load([req], Loaded(f))
  }

  /** A record with a `dd/mm/yyyy` date and absent `carros` loads with no vehicles. */
  lemma MissingCarrosLoadEmpty(c: Value, date: string)
    requires c.Obj? && OptGet(c, "dt_nascimento") == Str(date) && OptGet(c, "carros") == Undefined
    ensures FormOf(Obj([Member("data", c)])) == Some(Form(OptGet(c, "nome"), DateForInput(date), []))
  {
  }

  // ---------------------------------------------------------------------
  // Editing the vehicle list
  // ---------------------------------------------------------------------

  function SetCarroField(c: Carro, name: string, value: string): (r: Carro)
    ensures name == "modelo" ==> r == c.(modelo := Str(value))
    ensures name == "placa" ==> r == c.(placa := Str(value))
    ensures name == "cor" ==> r == c.(cor := Str(value))
    ensures name != "modelo" && name != "placa" && name != "cor" ==> r == c
  {
    if name == "modelo" then c.(modelo := Str(value))
    else if name == "placa" then c.(placa := Str(value))
    else if name == "cor" then c.(cor := Str(value))
    else c
  }

  function SetFormField(f: Form, name: string, value: string): (r: Form)
    ensures r.carros == f.carros
    ensures name == "nome" ==> r == f.(nome := Str(value))
    ensures name == "dt_nascimento" ==> r == f.(dtNascimento := value)
    ensures name != "nome" && name != "dt_nascimento" ==> r == f
  {
    if name == "nome" then f.(nome := Str(value))
    else if name == "dt_nascimento" then f.(dtNascimento := value)
    else f
  }

  /** `handleChange`: with a row index, the vehicle list is copied and the
      changed row assigned at that index; without one, the customer field. */
  method HandleChange(form: Form, name: string, value: string, index: Option<nat>) returns (r: Form)
    requires index.Some? ==> index.value < |form.carros|
    ensures index.Some? ==>
      var i := index.value;
      && r.nome == form.nome && r.dtNascimento == form.dtNascimento
      && |r.carros| == |form.carros|
      && r.carros[i] == SetCarroField(form.carros[i], name, value)
      && forall j :: 0 <= j < |r.carros| && j != i ==> r.carros[j] == form.carros[j]
    ensures index.None? ==> r == SetFormField(form, name, value)
  {
    if index.Some? {
      var i := index.value;
      var updated := new Carro[|form.carros|](j requires 0 <= j < |form.carros| => form.carros[j]);
      updated[i] := SetCarroField(updated[i], name, value);
      return form.(carros := updated[..]);
    }
    r := SetFormField(form, name, value);
  }

  /** `addCarro`: a blank row without an id is appended. */
  function AddCarro(f: Form): (r: Form)
    ensures r.nome == f.nome && r.dtNascimento == f.dtNascimento
    ensures r.carros == f.carros + [NewCarro]
    ensures !Truthy(r.carros[|f.carros|].idCarro)
  {
    f.(carros := f.carros + [NewCarro])
  }

  datatype Removal = Removal(sent: seq<Request>, form: Form)

  function DeleteRequest(apiUrl: string, token: Option<string>, id: Value): Request
  {
    Request(DELETE, apiUrl + "/carro/delete/" + JsString(id), map["Authorization" := Bearer(token)], Undefined)
  }

  /** `removeCarro(index)`: a row with a truthy id is first deleted on the
      server; once that request settles without throwing, whatever its status,
      or at once for a row without an id, the row is dropped. */
  function RemoveCarro(apiUrl: string, token: Option<string>, f: Form, index: nat, server: Server): (r: Removal)
    requires index < |f.carros|
    ensures r.sent == [] || r.sent == [DeleteRequest(apiUrl, token, f.carros[index].idCarro)]
    ensures r.form == f || r.form == f.(carros := Lists.RemoveAt(f.carros, index))
  {
    var carro := f.carros[index];
    var kept := f.(carros := Lists.RemoveAt(f.carros, index));
    if !Truthy(carro.idCarro) then Removal([], kept)
    else
      var req := DeleteRequest(apiUrl, token, carro.idCarro);
      if server == [] || server[0].NetworkError? then Removal([req], f)
      else Removal([req], kept)
  }

  /** A DELETE is sent exactly for a row with a truthy id, and the row is
      removed, the others keeping their order, unless that DELETE throws or
      never settles; the response status plays no part. */
  lemma RemoveCarroEffect(apiUrl: string, token: Option<string>, f: Form, index: nat, server: Server)
    requires index < |f.carros|
    ensures var r := RemoveCarro(apiUrl, token, f, index, server);
      && (r.sent != [] <==> Truthy(f.carros[index].idCarro))
      && (r.sent != [] ==> r.sent == [DeleteRequest(apiUrl, token, f.carros[index].idCarro)])
      && r.form.nome == f.nome && r.form.dtNascimento == f.dtNascimento
      && (r.form.carros == f.carros[..index] + f.carros[index + 1..]
          <==> !Truthy(f.carros[index].idCarro) || (server != [] && server[0].Answered?))
  {
    var c := f.carros;
    assert |c[..index] + c[index + 1..]| != |c|;
  }

  // ---------------------------------------------------------------------
  // Saving
  // ---------------------------------------------------------------------

  datatype Failure =
    | Network       // a `fetch` rejected
    | NotText       // `modelo` or `placa` is not a string, so `trim` throws

  datatype Outcome = Saved | Failed(failure: Failure) | Pending

  datatype Run = Run(sent: seq<Request>, outcome: Outcome)

  function Prefixed(prefix: seq<Request>, run: Run): Run
  {
    Run(prefix + run.sent, run.outcome)
  }

  function JsonHeaders(token: Option<string>): map<string, string>
  {
    map["Content-Type" := ContentTypeJson, "Authorization" := Bearer(token)]
  }

  function CustomerPut(apiUrl: string, token: Option<string>, id: Option<string>, f: Form): Request
  {
    Request(PUT, apiUrl + "/cliente/edit/" + ParamText(id), JsonHeaders(token),
            Obj([Member("nome", f.nome), Member("dt_nascimento", Str(f.dtNascimento))]))
  }

  /** The request for a vehicle that is saved: an update of a row with a truthy
      id, the creation of any other row; both carry the numeric customer id. */
  function VehicleRequest(apiUrl: string, token: Option<string>, idCliente: Value, c: Carro): (r: Request)
    ensures r.verb == PUT <==> Truthy(c.idCarro)
    ensures r.verb == PUT ==> r.url == apiUrl + "/carro/edit/" + JsString(c.idCarro)
    ensures r.verb == POST <==> !Truthy(c.idCarro)
    ensures r.verb == POST ==> r.url == apiUrl + "/carro/cad"
    ensures r.body.Obj? && Lookup(r.body.members, "id_cliente") == idCliente
    ensures Lookup(r.body.members, "modelo") == c.modelo && Lookup(r.body.members, "placa") == c.placa
    ensures Lookup(r.body.members, "cor") == c.cor
  {
    var body := Obj(VehicleMembers(c.modelo, c.placa, c.cor, idCliente));
    VehicleMembersLookup(c.modelo, c.placa, c.cor, idCliente);
    if Truthy(c.idCarro) then Request(PUT, apiUrl + "/carro/edit/" + JsString(c.idCarro), JsonHeaders(token), body)
    else Request(POST, apiUrl + "/carro/cad", JsonHeaders(token), body)
  }

  /** The body of a vehicle request, in the order the code writes it. */
  function VehicleMembers(modelo: Value, placa: Value, cor: Value, idCliente: Value): seq<Member>
  {
    [Member("modelo", modelo), Member("placa", placa), Member("cor", cor), Member("id_cliente", idCliente)]
  }

  lemma VehicleMembersLookup(modelo: Value, placa: Value, cor: Value, idCliente: Value)
    ensures Lookup(VehicleMembers(modelo, placa, cor, idCliente), "modelo") == modelo
    ensures Lookup(VehicleMembers(modelo, placa, cor, idCliente), "placa") == placa
    ensures Lookup(VehicleMembers(modelo, placa, cor, idCliente), "cor") == cor
    ensures Lookup(VehicleMembers(modelo, placa, cor, idCliente), "id_cliente") == idCliente
  {
    var last := [Member("id_cliente", idCliente)];
    var tail := [Member("cor", cor)] + last;
    var mid := [Member("placa", placa)] + tail;
    assert VehicleMembers(modelo, placa, cor, idCliente) == [Member("modelo", modelo)] + mid;
    // the four keys already differ in their first letters
    assert "modelo"[0] == 'm' && "placa"[0] == 'p' && "cor"[0] == 'c' && "id_cliente"[0] == 'i';
    LookupHead(Member("modelo", modelo), mid, "modelo");
    LookupHead(Member("modelo", modelo), mid, "placa");
    LookupHead(Member("modelo", modelo), mid, "cor");
    LookupHead(Member("modelo", modelo), mid, "id_cliente");
    LookupHead(Member("placa", placa), tail, "placa");
    LookupHead(Member("placa", placa), tail, "cor");
    LookupHead(Member("placa", placa), tail, "id_cliente");
    LookupHead(Member("cor", cor), last, "cor");
    LookupHead(Member("cor", cor), last, "id_cliente");
    LookupHead(Member("id_cliente", idCliente), [], "id_cliente");
  }

  /** `!carro.modelo.trim() || !carro.placa.trim()`: `None` when evaluating it
      throws. The placa is only looked at when the modelo is not blank. */
  function IsBlank(c: Carro): Option<bool>
  {
    match TrimValue(c.modelo)
    case None => None
    case Some(m) =>
      if m == "" then Some(true)
      else match TrimValue(c.placa)
        case None => None
        case Some(p) => Some(p == "")
  }

  /** A row that is saved: both `modelo` and `placa` are text that is not blank. */
  predicate Wanted(c: Carro)
  {
    IsBlank(c) == Some(false)
  }

  /** The vehicle loop from the current row on, given the replies still to come. */
  function SaveVehicles(apiUrl: string, token: Option<string>, idCliente: Value, carros: seq<Carro>, server: Server): (r: Run)
    ensures |r.sent| <= |carros|
    decreases |carros|
  {
    if carros == [] then Run([], Saved)
    else match IsBlank(carros[0])
      case None => Run([], Failed(NotText))
      case Some(true) => SaveVehicles(apiUrl, token, idCliente, carros[1..], server)
      case Some(false) =>
        var req := VehicleRequest(apiUrl, token, idCliente, carros[0]);
        if server == [] then Run([req], Pending)
        else if server[0].NetworkError? then Run([req], Failed(Network))
        else Prefixed([req], SaveVehicles(apiUrl, token, idCliente, carros[1..], server[1..]))
  }

  /** `handleSubmit` as a function of the form and the replies. */
  function Submit(apiUrl: string, token: Option<string>, id: Option<string>, f: Form, server: Server): (r: Run)
    ensures |r.sent| >= 1 && r.sent[0] == CustomerPut(apiUrl, token, id, f)
  {
    var first := CustomerPut(apiUrl, token, id, f);
    if server == [] then Run([first], Pending)
    else if server[0].NetworkError? then Run([first], Failed(Network))
    else Prefixed([first], SaveVehicles(apiUrl, token, NumericId(id), f.carros, server[1..]))
  }

  /** Sending `req` after `prefix` and then `run`. */
  lemma PrefixedThen(prefix: seq<Request>, req: Request, run: Run)
    ensures Prefixed(prefix, Prefixed([req], run)) == Prefixed(prefix + [req], run)
  {
    assert prefix + ([req] + run.sent) == (prefix + [req]) + run.sent;
  }

  /** A row whose trim throws ends the loop before anything is sent for it. */
  lemma UnreadableRow(apiUrl: string, token: Option<string>, idCliente: Value, carros: seq<Carro>, server: Server)
    requires carros != [] && IsBlank(carros[0]).None?
    ensures SaveVehicles(apiUrl, token, idCliente, carros, server) == Run([], Failed(NotText))
  {
  }

  /** A blank row is skipped and uses up no reply. */
  lemma BlankRow(apiUrl: string, token: Option<string>, idCliente: Value, carros: seq<Carro>, server: Server)
    requires carros != [] && IsBlank(carros[0]) == Some(true)
    ensures SaveVehicles(apiUrl, token, idCliente, carros, server)
            == SaveVehicles(apiUrl, token, idCliente, carros[1..], server)
  {
  }

  /** A wanted row sends its request and awaits one reply. */
  lemma WantedRow(apiUrl: string, token: Option<string>, idCliente: Value, carros: seq<Carro>, server: Server)
    requires carros != [] && IsBlank(carros[0]) == Some(false)
    ensures var req := VehicleRequest(apiUrl, token, idCliente, carros[0]);
      SaveVehicles(apiUrl, token, idCliente, carros, server)
      == if server == [] then Run([req], Pending)
         else if server[0].NetworkError? then Run([req], Failed(Network))
         else Prefixed([req], SaveVehicles(apiUrl, token, idCliente, carros[1..], server[1..]))
  {
  }

  /** After a settled customer PUT, the vehicle requests are, in list order, a
      prefix of the wanted rows' requests, each carrying `Number(id_cliente)`. */
  lemma SubmitSendsWantedRows(apiUrl: string, token: Option<string>, id: Option<string>, f: Form, server: Server)
    requires server != [] && server[0].Answered?
    ensures Submit(apiUrl, token, id, f, server).sent[1..]
            <= Requests(apiUrl, token, NumericId(id), Lists.Filter(f.carros, Wanted))
    ensures forall j :: 1 <= j < |Submit(apiUrl, token, id, f, server).sent| ==>
              Lookup(Submit(apiUrl, token, id, f, server).sent[j].body.members, "id_cliente") == NumericId(id)
  {
    var rest := SaveVehicles(apiUrl, token, NumericId(id), f.carros, server[1..]);
    var r := Submit(apiUrl, token, id, f, server);
    assert r.sent == [CustomerPut(apiUrl, token, id, f)] + rest.sent;
    assert r.sent[1..] == rest.sent;
    SavedRowsInOrder(apiUrl, token, NumericId(id), f.carros, server[1..]);
    var reqs := Requests(apiUrl, token, NumericId(id), Lists.Filter(f.carros, Wanted));
    forall j | 1 <= j < |r.sent|
      ensures Lookup(r.sent[j].body.members, "id_cliente") == NumericId(id)
    {
      assert r.sent[j] == rest.sent[j - 1] == reqs[j - 1];
    }
  }

  /** The submit handler: the customer PUT, then the vehicle loop. */
  method HandleSubmit(apiUrl: string, token: Option<string>, id: Option<string>, form: Form, server: Server)
    returns (sent: seq<Request>, outcome: Outcome)
    ensures Run(sent, outcome) == Submit(apiUrl, token, id, form, server)
  {
    sent := [CustomerPut(apiUrl, token, id, form)];
    if |server| == 0 {
      return sent, Pending;
    }
    if server[0].NetworkError? {
      return sent, Failed(Network);
    }
    var vehicles, outcome' := SaveEachVehicle(apiUrl, token, NumericId(id), form.carros, server[1..]);
    sent, outcome := sent + vehicles, outcome';
  }

  /** The `for` loop that skips blank rows (`continue`) and awaits one PUT or
      POST for each other row. */
  method SaveEachVehicle(apiUrl: string, token: Option<string>, idCliente: Value, carros: seq<Carro>, server: Server)
    returns (sent: seq<Request>, outcome: Outcome)
    ensures Run(sent, outcome) == SaveVehicles(apiUrl, token, idCliente, carros, server)
  {
    sent := [];
    var rows, replies := carros, server;
    while rows != []
      invariant SaveVehicles(apiUrl, token, idCliente, carros, server)
                == Prefixed(sent, SaveVehicles(apiUrl, token, idCliente, rows, replies))
      decreases |rows|
    {
      var blank := IsBlank(rows[0]);
      if blank.None? {
        UnreadableRow(apiUrl, token, idCliente, rows, replies);
        return sent, Failed(NotText);
      }
      if blank.value {
        BlankRow(apiUrl, token, idCliente, rows, replies);
        rows := rows[1..];
        continue;
      }
      var req := VehicleRequest(apiUrl, token, idCliente, rows[0]);
      WantedRow(apiUrl, token, idCliente, rows, replies);
      if replies == [] {
        return sent + [req], Pending;
      }
      if replies[0].NetworkError? {
        return sent + [req], Failed(Network);
      }
      PrefixedThen(sent, req, SaveVehicles(apiUrl, token, idCliente, rows[1..], replies[1..]));
      sent := sent + [req];
      rows, replies := rows[1..], replies[1..];
    }
    outcome := Saved;
  }

  /** Replies that fail or succeed at the same places. */
  predicate SameSettling(a: Server, b: Server)
  {
    |a| == |b| && forall k :: 0 <= k < |a| ==> (a[k].NetworkError? <==> b[k].NetworkError?)
  }

  lemma {:induction false} SaveIgnoresStatus(apiUrl: string, token: Option<string>, idCliente: Value, carros: seq<Carro>, a: Server, b: Server)
    requires SameSettling(a, b)
    ensures SaveVehicles(apiUrl, token, idCliente, carros, a) == SaveVehicles(apiUrl, token, idCliente, carros, b)
    decreases |carros|
  {
    if carros != [] {
      if a != [] {
        assert SameSettling(a[1..], b[1..]) by {
          assert forall k :: 0 <= k < |a| - 1 ==> a[1..][k] == a[k + 1] && b[1..][k] == b[k + 1];
        }
        SaveIgnoresStatus(apiUrl, token, idCliente, carros[1..], a[1..], b[1..]);
        assert a[0].NetworkError? <==> b[0].NetworkError?;
      }
      SaveIgnoresStatus(apiUrl, token, idCliente, carros[1..], a, b);
    }
  }

  /** Response statuses are never checked: only where the requests throw matters. */
  lemma {:induction false} StatusesIgnored(apiUrl: string, token: Option<string>, id: Option<string>, f: Form, a: Server, b: Server)
    requires SameSettling(a, b)
    ensures Submit(apiUrl, token, id, f, a) == Submit(apiUrl, token, id, f, b)
  {
    if a != [] {
      assert SameSettling(a[1..], b[1..]) by {
        assert forall k :: 0 <= k < |a| - 1 ==> a[1..][k] == a[k + 1] && b[1..][k] == b[k + 1];
      }
      SaveIgnoresStatus(apiUrl, token, NumericId(id), f.carros, a[1..], b[1..]);
      assert a[0].NetworkError? <==> b[0].NetworkError?;
    }
  }

  function Requests(apiUrl: string, token: Option<string>, idCliente: Value, carros: seq<Carro>): (r: seq<Request>)
    ensures |r| == |carros|
    ensures forall i :: 0 <= i < |carros| ==> r[i] == VehicleRequest(apiUrl, token, idCliente, carros[i])
  {
    if carros == [] then [] else [VehicleRequest(apiUrl, token, idCliente, carros[0])] + Requests(apiUrl, token, idCliente, carros[1..])
  }

  /** Every row's trim can be evaluated: its `modelo` is text, and so is its
      `placa` unless the `modelo` is blank. */
  predicate Readable(c: Carro)
  {
    IsBlank(c).Some?
  }

  /** The requests that reach `fetch` are, in list order, a prefix of those of
      the wanted rows: blank rows are skipped, and no row is sent twice. */
  lemma {:induction false} SavedRowsInOrder(apiUrl: string, token: Option<string>, idCliente: Value, carros: seq<Carro>, server: Server)
    ensures SaveVehicles(apiUrl, token, idCliente, carros, server).sent
            <= Requests(apiUrl, token, idCliente, Lists.Filter(carros, Wanted))
    decreases |carros|
  {
    if carros != [] {
      var c := carros[0];
      var kept := Lists.Filter(carros[1..], Wanted);
      if IsBlank(c).None? {
        UnreadableRow(apiUrl, token, idCliente, carros, server);
      } else if IsBlank(c) == Some(true) {
        BlankRow(apiUrl, token, idCliente, carros, server);
        FilterHead(carros);
        SavedRowsInOrder(apiUrl, token, idCliente, carros[1..], server);
      } else {
        var req := VehicleRequest(apiUrl, token, idCliente, c);
        WantedRow(apiUrl, token, idCliente, carros, server);
        FilterHead(carros);
        RequestsCons(apiUrl, token, idCliente, c, kept);
        var all := [req] + Requests(apiUrl, token, idCliente, kept);
        if server != [] && server[0].Answered? {
          SavedRowsInOrder(apiUrl, token, idCliente, carros[1..], server[1..]);
          ConsPrefix(req, SaveVehicles(apiUrl, token, idCliente, carros[1..], server[1..]).sent,
                     Requests(apiUrl, token, idCliente, kept));
        } else {
          assert [req] <= all;
        }
      }
    }
  }

  lemma ConsPrefix(x: Request, a: seq<Request>, b: seq<Request>)
    requires a <= b
    ensures [x] + a <= [x] + b
  {
    assert ([x] + b)[..|[x] + a|] == [x] + b[..|a|];
  }

  /** `filter(Wanted)` looks at the first row, then at the rest. */
  lemma FilterHead(carros: seq<Carro>)
    requires carros != []
    ensures Lists.Filter(carros, Wanted)
            == if Wanted(carros[0]) then [carros[0]] + Lists.Filter(carros[1..], Wanted)
               else Lists.Filter(carros[1..], Wanted)
  {
  }

  lemma RequestsCons(apiUrl: string, token: Option<string>, idCliente: Value, c: Carro, cs: seq<Carro>)
    ensures Requests(apiUrl, token, idCliente, [c] + cs)
            == [VehicleRequest(apiUrl, token, idCliente, c)] + Requests(apiUrl, token, idCliente, cs)
  {
    assert ([c] + cs)[1..] == cs;
  }

  /** When every trim can be evaluated and every request settles, exactly the
      wanted rows are sent, in list order, and the save succeeds. */
  lemma {:induction false} AllRowsSaved(apiUrl: string, token: Option<string>, idCliente: Value, carros: seq<Carro>, server: Server)
    requires forall i :: 0 <= i < |carros| ==> Readable(carros[i])
    requires |Lists.Filter(carros, Wanted)| <= |server|
    requires forall k :: 0 <= k < |server| ==> server[k].Answered?
    ensures SaveVehicles(apiUrl, token, idCliente, carros, server)
            == Run(Requests(apiUrl, token, idCliente, Lists.Filter(carros, Wanted)), Saved)
    decreases |carros|
  {
    if carros != [] {
      ReadableTail(carros);
      FilterHead(carros);
      if IsBlank(carros[0]) == Some(true) {
        BlankRow(apiUrl, token, idCliente, carros, server);
        AllRowsSaved(apiUrl, token, idCliente, carros[1..], server);
      } else {
        WantedRow(apiUrl, token, idCliente, carros, server);
        RequestsCons(apiUrl, token, idCliente, carros[0], Lists.Filter(carros[1..], Wanted));
        AnsweredTail(server);
        AllRowsSaved(apiUrl, token, idCliente, carros[1..], server[1..]);
      }
    }
  }

  lemma ReadableTail(carros: seq<Carro>)
    requires carros != [] && forall i :: 0 <= i < |carros| ==> Readable(carros[i])
    ensures Readable(carros[0]) && forall i :: 0 <= i < |carros[1..]| ==> Readable(carros[1..][i])
  {
    assert forall i :: 0 <= i < |carros| - 1 ==> carros[1..][i] == carros[i + 1];
  }

  lemma AnsweredTail(server: Server)
    requires server != [] && forall k :: 0 <= k < |server| ==> server[k].Answered?
    ensures server[0].Answered? && forall k :: 0 <= k < |server[1..]| ==> server[1..][k].Answered?
  {
    assert forall k :: 0 <= k < |server| - 1 ==> server[1..][k] == server[k + 1];
  }
}
