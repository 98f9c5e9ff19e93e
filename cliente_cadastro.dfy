/** The customer registration page: a form with the customer's name, birth
    date and a working list of vehicles, and a submit handler that creates the
    customer and then each vehicle, in order, stopping at the first failure. */
module ClienteCadastro {
  import opened Wrappers
  import opened JsValue
  import opened Http
  import Lists

  datatype Carro = Carro(modelo: string, placa: string, cor: string)

  /** The form state: `dtNascimento` is the `yyyy-mm-dd` text of the date input. */
  datatype Form = Form(nome: string, dtNascimento: string, carros: seq<Carro>)

  const BlankCarro: Carro := Carro("", "", "")

  /** The state the page starts in: empty fields and exactly one blank vehicle. */
  function InitialForm(): (f: Form)
    ensures f.nome == "" && f.dtNascimento == ""
    ensures |f.carros| == 1 && f.carros[0] == BlankCarro
  {
    Form("", "", [BlankCarro])
  }

  // ---------------------------------------------------------------------
  // Editing the form
  // ---------------------------------------------------------------------

  /** The inputs of a vehicle row are named `modelo_<i>`, `placa_<i>` and `cor_<i>`;
      any name with one of those prefixes is routed to the vehicle list. */
  predicate IsVehicleInputName(name: string)
  {
    StartsWith(name, "modelo") || StartsWith(name, "placa") || StartsWith(name, "cor")
  }

  /** The property a vehicle input writes: its name up to the first `_`. */
  function FieldKey(name: string): string
  {
    Split(name, '_')[0]
  }

  /** `{ ...carro, [key]: value }` for the three vehicle properties. */
  function SetCarroField(c: Carro, key: string, value: string): (r: Carro)
    ensures key == "modelo" ==> r == c.(modelo := value)
    ensures key == "placa" ==> r == c.(placa := value)
    ensures key == "cor" ==> r == c.(cor := value)
    ensures key != "modelo" && key != "placa" && key != "cor" ==> r == c
  {
    if key == "modelo" then c.(modelo := value)
    else if key == "placa" then c.(placa := value)
    else if key == "cor" then c.(cor := value)
    else c
  }

  /** `{ ...form, [name]: value }` for the customer's own inputs. */
  function SetFormField(f: Form, name: string, value: string): (r: Form)
    ensures r.carros == f.carros
    ensures name == "nome" ==> r == f.(nome := value)
    ensures name == "dt_nascimento" ==> r == f.(dtNascimento := value)
    ensures name != "nome" && name != "dt_nascimento" ==> r == f
  {
    if name == "nome" then f.(nome := value)
    else if name == "dt_nascimento" then f.(dtNascimento := value)
    else f
  }

  /** `handleChange`: a vehicle input with a row index copies the vehicle list
      and assigns the changed vehicle at that index; a vehicle input without an
      index changes nothing; any other input sets the customer field it names. */
  method HandleChange(form: Form, name: string, value: string, index: Option<nat>) returns (r: Form)
    requires IsVehicleInputName(name) && index.Some? ==> index.value < |form.carros|
    ensures IsVehicleInputName(name) && index.None? ==> r == form
    ensures IsVehicleInputName(name) && index.Some? ==>
      var i := index.value;
      && r.nome == form.nome && r.dtNascimento == form.dtNascimento
      && |r.carros| == |form.carros|
      && r.carros[i] == SetCarroField(form.carros[i], FieldKey(name), value)
      && forall j :: 0 <= j < |r.carros| && j != i ==> r.carros[j] == form.carros[j]
    ensures !IsVehicleInputName(name) ==> r == SetFormField(form, name, value)
  {
    if IsVehicleInputName(name) {
      if index.None? {
        return form;
      }
      var i := index.value;
      var updated := new Carro[|form.carros|](j requires 0 <= j < |form.carros| => form.carros[j]);
      updated[i] := SetCarroField(updated[i], FieldKey(name), value);
      r := form.(carros := updated[..]);
    } else {
      r := SetFormField(form, name, value);
    }
  }

  /** The input `<field>_<i>` of row `i` writes exactly `field`. */
  lemma {:induction false} VehicleInputKey(field: string, i: nat)
    requires field == "modelo" || field == "placa" || field == "cor"
    ensures IsVehicleInputName(field + "_" + NatToString(i))
    ensures FieldKey(field + "_" + NatToString(i)) == field
  {
    var name := field + "_" + NatToString(i);
    assert name[..|field|] == field;
    assert '_' !in field;
    DigitsHaveNoUnderscore(NatToString(i));
    SplitNoSeparator(NatToString(i), '_');
    assert name == field + (['_'] + NatToString(i));
    SplitPrefix(field, NatToString(i), '_');
  }

  lemma DigitsHaveNoUnderscore(s: string)
    requires AllDigits(s)
    ensures '_' !in s
  {
  }

  /** `addCarro`: one blank vehicle is appended and the rest is unchanged. */
  function AddCarro(f: Form): (r: Form)
    ensures r.nome == f.nome && r.dtNascimento == f.dtNascimento
    ensures |r.carros| == |f.carros| + 1 && r.carros[|f.carros|] == BlankCarro
    ensures r.carros[..|f.carros|] == f.carros
  {
    f.(carros := f.carros + [BlankCarro])
  }

  /** `removeCarro(index)`: the vehicle at `index` is dropped and the others keep their order. */
  function RemoveCarro(f: Form, index: int): (r: Form)
    ensures r.nome == f.nome && r.dtNascimento == f.dtNascimento
    ensures 0 <= index < |f.carros| ==> r.carros == f.carros[..index] + f.carros[index + 1..]
    ensures !(0 <= index < |f.carros|) ==> r == f
  {
    f.(carros := Lists.RemoveAt(f.carros, index))
  }

  /** Removing the row that was just added gives the form back. */
  lemma RemoveUndoesAdd(f: Form)
    ensures RemoveCarro(AddCarro(f), |f.carros|) == f
  {
    assert AddCarro(f).carros[..|f.carros|] == f.carros;
  }

  // ---------------------------------------------------------------------
  // Submitting
  // ---------------------------------------------------------------------

  datatype Failure =
    | CustomerRejected           // the customer POST was not OK
    | CustomerBodyUnreadable     // its body is not JSON, or `data` cannot be read
    | VehicleRejected(modelo: string)
    | Network                    // a `fetch` rejected

  datatype Outcome = Registered | Failed(failure: Failure) | Pending

  /** The requests issued and how the submission ended. */
  datatype Run = Run(sent: seq<Request>, outcome: Outcome)

  function AuthHeaders(token: Option<string>): map<string, string>
  {
    map["Content-Type" := ContentTypeJson, "Authorization" := Bearer(token)]
  }

  function CustomerRequest(apiUrl: string, token: Option<string>, form: Form): Request
  {
    Request(POST, apiUrl + "/cliente/cad", AuthHeaders(token),
            Obj([Member("nome", Str(form.nome)), Member("dt_nascimento", Str(form.dtNascimento))]))
  }

  function VehicleRequest(apiUrl: string, token: Option<string>, c: Carro, idCliente: Value): Request
  {
    Request(POST, apiUrl + "/carro/cad", AuthHeaders(token),
            Obj([Member("modelo", Str(c.modelo)), Member("placa", Str(c.placa)),
                 Member("cor", Str(c.cor)), Member("id_cliente", idCliente)]))
  }

  /** `clienteCriado.data.id_cliente`, or `None` when reading it throws. */
  function CreatedId(json: Value): (r: Option<Value>)
    ensures r.Some? <==> !IsNullish(json) && !IsNullish(OptGet(json, "data"))
  {
    match Get(json, "data")
    case None => None
    case Some(data) => Get(data, "id_cliente")
  }

  /** The vehicle loop from the current vehicle on, given the replies still to come. */
  function PostVehicles(apiUrl: string, token: Option<string>, carros: seq<Carro>, id: Value, server: Server): (r: Run)
    ensures |r.sent| <= |carros|
    ensures carros != [] ==> |r.sent| >= 1
    ensures r.outcome != Failed(CustomerRejected) && r.outcome != Failed(CustomerBodyUnreadable)
  {
    if carros == [] then Run([], Registered)
    else
      var req := VehicleRequest(apiUrl, token, carros[0], id);
      if server == [] then Run([req], Pending)
      else match server[0]
        case NetworkError => Run([req], Failed(Network))
        case Answered(res) =>
          if !Ok(res) then Run([req], Failed(VehicleRejected(carros[0].modelo)))
          else
            var rest := PostVehicles(apiUrl, token, carros[1..], id, server[1..]);
            Run([req] + rest.sent, rest.outcome)
  }

  /** `handleSubmit` as a function of the form and the replies. */
  function Submit(apiUrl: string, token: Option<string>, form: Form, server: Server): (r: Run)
    ensures |r.sent| >= 1 && r.sent[0] == CustomerRequest(apiUrl, token, form)
  {
    var first := CustomerRequest(apiUrl, token, form);
    if server == [] then Run([first], Pending)
    else match server[0]
      case NetworkError => Run([first], Failed(Network))
      case Answered(res) =>
        if !Ok(res) then Run([first], Failed(CustomerRejected))
        else match res.json
          case None => Run([first], Failed(CustomerBodyUnreadable))
          case Some(body) =>
            match CreatedId(body)
            case None => Run([first], Failed(CustomerBodyUnreadable))
            case Some(id) =>
              var rest := PostVehicles(apiUrl, token, form.carros, id, server[1..]);
              Run([first] + rest.sent, rest.outcome)
  }

  /** The submit handler: the customer POST, then one awaited POST per vehicle. */
  method HandleSubmit(apiUrl: string, token: Option<string>, form: Form, server: Server)
    returns (sent: seq<Request>, outcome: Outcome)
    ensures Run(sent, outcome) == Submit(apiUrl, token, form, server)
  {
    sent := [CustomerRequest(apiUrl, token, form)];
    if |server| == 0 {
      return sent, Pending;
    }
    if server[0].NetworkError? {
      return sent, Failed(Network);
    }
    var res := server[0].response;
    if !Ok(res) {
      return sent, Failed(CustomerRejected);
    }
    if res.json.None? {
      return sent, Failed(CustomerBodyUnreadable);
    }
    var data := Get(res.json.value, "data");
    if data.None? {
      return sent, Failed(CustomerBodyUnreadable);
    }
    var id := Get(data.value, "id_cliente");
    if id.None? {
      return sent, Failed(CustomerBodyUnreadable);
    }
    var vehicles, outcome' := PostEachVehicle(apiUrl, token, form.carros, id.value, server[1..]);
    sent, outcome := sent + vehicles, outcome';
  }

  /** The `for` loop over the vehicles: one awaited POST each, leaving the
      loop by throwing at the first reply that is not OK. */
  method PostEachVehicle(apiUrl: string, token: Option<string>, carros: seq<Carro>, id: Value, server: Server)
    returns (sent: seq<Request>, outcome: Outcome)
    ensures Run(sent, outcome) == PostVehicles(apiUrl, token, carros, id, server)
  {
    sent := [];
    var rows, replies := carros, server;
    while rows != []
      invariant PostVehicles(apiUrl, token, carros, id, server)
                == Prefixed(sent, PostVehicles(apiUrl, token, rows, id, replies))
      decreases |rows|
    {
      var req := VehicleRequest(apiUrl, token, rows[0], id);
      FirstVehicle(apiUrl, token, rows, id, replies);
      if replies == [] {
        return sent + [req], Pending;
      }
      if replies[0].NetworkError? {
        return sent + [req], Failed(Network);
      }
      if !Ok(replies[0].response) {
        return sent + [req], Failed(VehicleRejected(rows[0].modelo));
      }
      PrefixedThen(sent, req, PostVehicles(apiUrl, token, rows[1..], id, replies[1..]));
      sent := sent + [req];
      rows, replies := rows[1..], replies[1..];
    }
    outcome := Registered;
  }

  /** `run` with `prefix` sent before it. */
  function Prefixed(prefix: seq<Request>, run: Run): Run
  {
    Run(prefix + run.sent, run.outcome)
  }

  /** Sending `req` after `prefix` and then `run`. */
  lemma PrefixedThen(prefix: seq<Request>, req: Request, run: Run)
    ensures Prefixed(prefix, Prefixed([req], run)) == Prefixed(prefix + [req], run)
  {
    assert prefix + ([req] + run.sent) == (prefix + [req]) + run.sent;
  }

  /** One turn of the vehicle loop. */
  lemma FirstVehicle(apiUrl: string, token: Option<string>, carros: seq<Carro>, id: Value, server: Server)
    requires carros != []
    ensures var req := VehicleRequest(apiUrl, token, carros[0], id);
      PostVehicles(apiUrl, token, carros, id, server)
      == if server == [] then Run([req], Pending)
         else if server[0].NetworkError? then Run([req], Failed(Network))
         else if !Ok(server[0].response) then Run([req], Failed(VehicleRejected(carros[0].modelo)))
         else Prefixed([req], PostVehicles(apiUrl, token, carros[1..], id, server[1..]))
  {
  }

  /** The vehicle loop posts a prefix of the list, in list order, each tagged with `id`. */
  lemma {:induction false} PostedInOrder(apiUrl: string, token: Option<string>, carros: seq<Carro>, id: Value, server: Server)
    ensures var r := PostVehicles(apiUrl, token, carros, id, server);
      forall j :: 0 <= j < |r.sent| ==> r.sent[j] == VehicleRequest(apiUrl, token, carros[j], id)
  {
    if carros != [] && server != [] && server[0].Answered? && Ok(server[0].response) {
      PostedInOrder(apiUrl, token, carros[1..], id, server[1..]);
    }
  }

  /** A customer POST that is not OK is the only request. */
  lemma {:induction false} RejectedCustomerStops(apiUrl: string, token: Option<string>, form: Form, server: Server)
    requires !AnsweredOk(server, 0)
    ensures Submit(apiUrl, token, form, server).sent == [CustomerRequest(apiUrl, token, form)]
    ensures Submit(apiUrl, token, form, server).outcome != Registered
  {
  }

  /** Every request after the first is the POST of vehicle `j - 1`, in list
      order, tagged with the id the customer POST returned; no vehicle is skipped. */
  lemma {:induction false} VehiclesInOrder(apiUrl: string, token: Option<string>, form: Form, server: Server)
    ensures var r := Submit(apiUrl, token, form, server);
      && |r.sent| <= 1 + |form.carros|
      && (|r.sent| > 1 ==>
            AnsweredOk(server, 0) && server[0].response.json.Some?
            && CreatedId(server[0].response.json.value).Some?
            && forall j :: 1 <= j < |r.sent| ==>
                 r.sent[j] == VehicleRequest(apiUrl, token, form.carros[j - 1],
                                             CreatedId(server[0].response.json.value).value))
  {
    if AnsweredOk(server, 0) && server[0].response.json.Some? && CreatedId(server[0].response.json.value).Some? {
      var id := CreatedId(server[0].response.json.value).value;
      CustomerCreated(apiUrl, token, form, server, id);
      PostedInOrder(apiUrl, token, form.carros, id, server[1..]);
    } else {
      CustomerOnly(apiUrl, token, form, server);
    }
  }

  /** After a created customer the vehicle loop runs on the remaining replies. */
  lemma CustomerCreated(apiUrl: string, token: Option<string>, form: Form, server: Server, id: Value)
    requires AnsweredOk(server, 0) && server[0].response.json.Some?
    requires CreatedId(server[0].response.json.value) == Some(id)
    ensures Submit(apiUrl, token, form, server)
            == Prefixed([CustomerRequest(apiUrl, token, form)], PostVehicles(apiUrl, token, form.carros, id, server[1..]))
  {
  }

  /** Without a created customer only the customer POST is sent. */
  lemma CustomerOnly(apiUrl: string, token: Option<string>, form: Form, server: Server)
    requires !(AnsweredOk(server, 0) && server[0].response.json.Some? && CreatedId(server[0].response.json.value).Some?)
    ensures |Submit(apiUrl, token, form, server).sent| == 1
  {
  }

  /** The vehicle loop ends with `Registered` exactly when every one of its replies was OK. */
  lemma {:induction false} VehicleLoopRegisters(apiUrl: string, token: Option<string>, carros: seq<Carro>, id: Value, server: Server)
    ensures PostVehicles(apiUrl, token, carros, id, server).outcome == Registered
            <==> AllOk(server, |carros|)
    ensures AllOk(server, |carros|) ==> |PostVehicles(apiUrl, token, carros, id, server).sent| == |carros|
  {
    if carros != [] && server != [] && server[0].Answered? && Ok(server[0].response) {
      VehicleLoopRegisters(apiUrl, token, carros[1..], id, server[1..]);
      AllOkTail(server, |carros|);
    } else if carros != [] {
      assert !AnsweredOk(server, 0);
    }
  }

  /** A readable customer reply followed by OK replies for every vehicle issues
      exactly 1 + |carros| POSTs and ends in the success branch; conversely a
      registration that succeeds had every reply OK. */
  lemma {:induction false} RegisteredIffAllOk(apiUrl: string, token: Option<string>, form: Form, server: Server)
    ensures var r := Submit(apiUrl, token, form, server);
      r.outcome == Registered <==>
        (AllOk(server, 1 + |form.carros|) && server[0].Answered? && server[0].response.json.Some?
         && CreatedId(server[0].response.json.value).Some?)
    ensures var r := Submit(apiUrl, token, form, server);
      r.outcome == Registered ==> |r.sent| == 1 + |form.carros|
  {
    if AnsweredOk(server, 0) && server[0].response.json.Some? && CreatedId(server[0].response.json.value).Some? {
      var id := CreatedId(server[0].response.json.value).value;
      VehicleLoopRegisters(apiUrl, token, form.carros, id, server[1..]);
      AllOkTail(server, 1 + |form.carros|);
    }
  }

  /** The first vehicle whose reply is not OK is the last request: the later
      vehicles are not posted and the earlier ones stay created. */
  lemma {:induction false} FirstRejectedVehicleStops(apiUrl: string, token: Option<string>, carros: seq<Carro>, id: Value, server: Server, i: nat)
    requires i < |carros| && AllOk(server, i) && i < |server|
    requires server[i].Answered? && !Ok(server[i].response)
    ensures var r := PostVehicles(apiUrl, token, carros, id, server);
      |r.sent| == i + 1 && r.outcome == Failed(VehicleRejected(carros[i].modelo))
  {
    if i > 0 {
      assert AnsweredOk(server, 0);
      AllOkTail(server, i);
      FirstRejectedVehicleStops(apiUrl, token, carros[1..], id, server[1..], i - 1);
    }
  }

  /** Vehicle `i` rejected after an OK, readable customer reply: i + 2 requests
      in all and a failure naming that vehicle's model. */
  lemma {:induction false} RejectedVehicleEndsSubmit(apiUrl: string, token: Option<string>, form: Form, server: Server, i: nat)
    requires AnsweredOk(server, 0) && server[0].response.json.Some?
    requires CreatedId(server[0].response.json.value).Some?
    requires i < |form.carros| && AllOk(server, i + 1) && i + 1 < |server|
    requires server[i + 1].Answered? && !Ok(server[i + 1].response)
    ensures var r := Submit(apiUrl, token, form, server);
      |r.sent| == i + 2 && r.outcome == Failed(VehicleRejected(form.carros[i].modelo))
  {
    var id := CreatedId(server[0].response.json.value).value;
    AllOkTail(server, i + 1);
    FirstRejectedVehicleStops(apiUrl, token, form.carros, id, server[1..], i);
  }
}
