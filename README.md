# Parking-lot admin console — a verified model of its page logic

The console is a React front end for a parking-lot back office. Operators log
in. They then manage customers, each customer with a list of vehicles, and
they manage other operators. The pages talk to a REST back end with `fetch`,
and they keep the session in `localStorage`. The rules those pages follow are
modelled here in Dafny:

- `Login`: the login request and the three session writes that follow a
  successful login.
- `Api`: the shared `apiFetch` helper, with its headers and its 401 handling.
- `Routes`: the `requireAuth` guard and the route table, as a resolver from a
  path to either a page or a redirect.
- `ClienteCadastro`: customer registration. The customer is POSTed first, then
  each vehicle in order, and the first refused vehicle stops the rest.
- `ClienteEditar`: customer editing. It covers loading with the date
  conversion, editing the vehicle list, and saving (a PUT of the customer,
  then a skip, PUT or POST per vehicle).
- `ClienteListagem` and `OperadorListagem`: the list pages and their
  delete-confirmation state. The operator list also filters rows for operators
  who are not admins.
- `OperadorCadastro`: operator registration. It has the ordered validator, the
  e-mail pattern, the trimmed payload and the error text.
- `OperadorEditar`: operator editing. It covers the defaults applied on
  loading, field edits, and a payload that omits a blank password.

The back end is an oracle, `Http.Server`: a sequence of replies, one per
request, in the order the requests are sent. A reply is either a response
(status, plus the parsed JSON body or `None` when the body is not JSON) or a
transport failure. When the sequence runs out, the request never settles.

Each workflow returns the requests it sends and an outcome tag. Pages whose
state the handlers update step by step are classes:

- `ListaCliente`, `ListaOperador`, `OperadorCadastroPage` and
  `OperadorEditarPage`, whose fields mirror the page's state hooks;
- `Session.SessionStore` for `localStorage`.

Their methods are proved against pure transition functions. The lemmas state
the rules about those functions.

The JSON-shaped values the pages handle (response bodies, loaded records,
payloads) are `JsValue.Value`: `undefined`, `null`, booleans, integers,
strings, arrays and objects with ordered keys. The same module holds the language operations the pages
depend on:

- property access that throws on `null`/`undefined` (`Get`), and optional
  chaining (`OptGet`);
- truthiness and `||`;
- object spread and `delete`;
- `trim` with JavaScript's white-space set, and `split`;
- `String(x)`, `Number(x)` and `===`.

`Json.Stringify` is `JSON.stringify`. Both modules serve the session writes
and the request bodies.

## Model

| member | source | states |
|---|---|---|
| Api.Headers | src/utils/api.ts:4-9 | The header keys are "Content-Type", plus "Authorization" exactly when the stored token is non-empty, plus the caller's own keys. Caller headers override both defaults. Otherwise the values are "application/json" and "Bearer " + token. |
| Api.OutcomeOf | src/utils/api.ts:13-18 | The call fails as an expired session exactly when the reply is an answered 401. |
| Api.ApiFetch | src/utils/api.ts:3-19 | Sends the base URL + endpoint with the built headers, using the token read from the store before the call. Resolves with the parsed body, or fails. The store ends as `StoreAfter`: only a 401 removes the token. |
| Api.RequestShape | src/utils/api.ts:7-11 | The URL is the base URL followed by the endpoint. "Content-Type" is always sent. Without a caller-supplied one, "Authorization" is sent iff the token is non-empty. |
| Api.ExpiredSessionClearsOnlyToken | src/utils/api.ts:13-16 | A 401 removes the token, keeps every other key and its value, and fails the call as an expired session. |
| Api.OtherStatusesPassThrough | src/utils/api.ts:18 | Any other answered status, error statuses included, resolves with the parsed body and leaves the session unchanged. |
| Login.LoginRequest | src/pages/Login.tsx:18-22 | A POST to /login with only a Content-Type header and a body whose `email` is the user name and whose `senha` is the password. |
| Login.LoginData | src/pages/Login.tsx:24-28 | A body is taken exactly when the response is OK and its body parses to a non-nullish value, and the body taken is that parsed value. |
| Login.StoreAfter | src/pages/Login.tsx:28-40 | The login adds no keys other than token, isAdmin and usuarioLogado, and every other stored key keeps its value. |
| Login.HandleSubmit | src/pages/Login.tsx:13-52 | Sends the login request. The outcome and the new session are the ones the login functions give for the server's reply. |
| Login.FailedLoginWritesNothing | src/pages/Login.tsx:24 | A login that does not succeed writes nothing to the session. |
| Login.SuccessfulLoginWrites | src/pages/Login.tsx:28-40 | A successful login adds exactly the keys token, isAdmin and usuarioLogado, and keeps every other key unchanged. They hold `String(data.token)`, `JSON.stringify(data.admin)`, and the JSON text of exactly id_operador, nome, email and admin. |
| Login.LoginOpensPrivateArea | src/pages/Login.tsx:29 | After a login whose token is a non-empty string, `requireAuth` lets the session through. |
| Login.MissingTokenIsStoredAsText | src/pages/Login.tsx:28-29 | An OK body without a token stores the text "undefined", which `requireAuth` accepts. |
| Login.TokenAndFlagStored | src/pages/Login.tsx:28-30 | A successful login whose body has a string token and a boolean `admin` stores that token and "true" or "false". |
| Login.AnaLogsIn | src/pages/Login.tsx:28-30 | Example: an OK reply for a non-admin operator with token T1 stores "T1" and "false". |
| Login.AnaSeesCustomers | src/pages/Login.tsx:45 | Example: after that login, /app/clientes renders the customer list. |
| Routes.RequireAuth | src/App.tsx:21-28 | Redirects to /login iff the stored token is absent or empty, and returns null otherwise. |
| Routes.Resolve | src/App.tsx:30-55 | Every redirect goes to /login or /app/clientes, and the latter only for a session with a token. The login page is rendered exactly for the path /login. |
| Routes.PrivatePagesNeedToken | src/App.tsx:38-52 | Any page other than the login page is only ever rendered for a session with a non-empty token. |
| Routes.GuardRunsFirst | src/App.tsx:39-51 | Without a token, every path of the /app area in the table redirects to /login. |
| Routes.LoginIsPublic | src/App.tsx:33-36 | /login renders the login page whatever the session holds. |
| Routes.AppIndexRedirects | src/App.tsx:43 | /app with a token redirects to /app/clientes. |
| Routes.UnknownPathsGoToLogin | src/App.tsx:54 | A path that is not in the table redirects to /login whatever the session holds. |
| Routes.OperadorPathIsUnknown | src/App.tsx:42-54 | /operador is not in the table, so it redirects to /login. |
| Routes.AppChildRenders | src/App.tsx:44-50 | With a token, /app/ followed by a one-segment child path renders that child page. |
| Routes.ClientesRenders | src/App.tsx:44 | With a token, /app/clientes renders the customer list. |
| Routes.OperadorRenders | src/App.tsx:48 | With a token, /app/operador renders the operator list. |
| Session.Read | src/App.tsx:22 | `getItem` gives a value iff the key is stored, and that value is the stored text. |
| Session.SessionStore.GetItem | src/utils/api.ts:4 | Returns what `Read` gives for the current contents. |
| Session.SessionStore.SetItem | src/pages/Login.tsx:29-40 | The contents become the old ones with that key set to that text. |
| Session.SessionStore.RemoveItem | src/utils/api.ts:14 | The contents become the old ones without that key. |
| Json.Stringify | src/pages/Login.tsx:30-39 | `JSON.stringify` gives no text exactly for `undefined`. |
| Json.StorageText | src/pages/Login.tsx:30 | The text `setItem` stores for `JSON.stringify(v)`: "undefined" for `undefined`, the JSON text otherwise. |
| Json.EscapePlain | src/pages/Login.tsx:34-39 | A string with no quote, backslash or control character is written between quotes unchanged. |
| JsValue.Trim | src/pages/operador/Cadastro.tsx:34-35 | `trim()` gives "" exactly when the text is all white space. The result is the text from its first non-white-space character, with only white space after it, and neither starts nor ends with white space. Text without white space is unchanged. |
| JsValue.SetMember | src/pages/operador/Editar.tsx:72-75 | After `{ ...o, [k]: v }`, `k` reads `v` and every other key reads as before. |
| JsValue.SetMemberKeys | src/pages/operador/Editar.tsx:72-75 | The spread update keeps the key order, and appends `k` only when it is new. |
| JsValue.DeleteMember | src/pages/operador/Editar.tsx:89 | After `delete o[k]`, there is no `k` and every other key reads as before. |
| JsValue.SplitJoin | src/pages/cliente/Editar.tsx:52-53 | Splitting on a separator the parts do not contain recovers the parts that were joined. |
| ClienteCadastro.InitialForm | src/pages/cliente/Cadastro.tsx:19-23 | The first form has an empty name and birth date, and exactly one blank vehicle. |
| ClienteCadastro.SetCarroField | src/pages/cliente/Cadastro.tsx:43-46 | Sets `modelo`, `placa` or `cor` by name. Any other name leaves the vehicle unchanged. |
| ClienteCadastro.SetFormField | src/pages/cliente/Cadastro.tsx:49 | Sets `nome` or `dt_nascimento` by name, never touches the vehicles, and ignores any other name. |
| ClienteCadastro.HandleChange | src/pages/cliente/Cadastro.tsx:36-50 | A vehicle input with an index changes only that vehicle's field named by the prefix before `_`. A vehicle input without an index changes nothing. Any other input sets the customer field. |
| ClienteCadastro.VehicleInputKey | src/pages/cliente/Cadastro.tsx:37-45 | The input `modelo_i`, `placa_i` or `cor_i` is a vehicle input, and its key is the field name. |
| ClienteCadastro.AddCarro | src/pages/cliente/Cadastro.tsx:53-58 | Appends one blank vehicle and keeps the earlier vehicles and the customer fields. |
| ClienteCadastro.RemoveCarro | src/pages/cliente/Cadastro.tsx:60-63 | Drops exactly position i and keeps the rest in order. An index out of range changes nothing. |
| ClienteCadastro.RemoveUndoesAdd | src/pages/cliente/Cadastro.tsx:53-63 | Removing the vehicle just added gives back the form as it was. |
| ClienteCadastro.CreatedId | src/pages/cliente/Cadastro.tsx:85-87 | `clienteCriado.data.id_cliente` can be read iff the body and its `data` are not nullish. |
| ClienteCadastro.PostVehicles | src/pages/cliente/Cadastro.tsx:90-107 | The vehicle loop sends at most one POST per vehicle, sends at least one when there is a vehicle, and never reports a customer failure. |
| ClienteCadastro.Submit | src/pages/cliente/Cadastro.tsx:65-110 | The customer POST is always the first request. |
| ClienteCadastro.HandleSubmit | src/pages/cliente/Cadastro.tsx:65-110 | The awaited request sequence, with early exits, sends exactly the requests of `Submit` and ends in its outcome. |
| ClienteCadastro.PostEachVehicle | src/pages/cliente/Cadastro.tsx:90-107 | The `for` loop over the vehicles sends exactly the requests of `PostVehicles` and ends in its outcome. |
| ClienteCadastro.PostedInOrder | src/pages/cliente/Cadastro.tsx:90-103 | Request j of the loop is the POST /carro/cad of vehicle j, tagged with the customer's id. |
| ClienteCadastro.RejectedCustomerStops | src/pages/cliente/Cadastro.tsx:71-83 | If the customer POST is not answered OK, it is the only request and the run does not succeed. |
| ClienteCadastro.VehiclesInOrder | src/pages/cliente/Cadastro.tsx:87-103 | After the customer POST, the requests are the vehicles' POSTs in list order, each carrying `data.id_cliente` from the customer response. |
| ClienteCadastro.VehicleLoopRegisters | src/pages/cliente/Cadastro.tsx:90-110 | The loop succeeds iff all its replies are OK. In that case it sends exactly one POST per vehicle. |
| ClienteCadastro.RegisteredIffAllOk | src/pages/cliente/Cadastro.tsx:90-110 | The registration succeeds iff the customer reply is OK with a readable id and every vehicle reply is OK. It then sends 1 + the number of vehicles POSTs. |
| ClienteCadastro.FirstRejectedVehicleStops | src/pages/cliente/Cadastro.tsx:105-106 | The first refused vehicle ends the loop after its own POST. Earlier POSTs stay sent and are not undone. |
| ClienteCadastro.RejectedVehicleEndsSubmit | src/pages/cliente/Cadastro.tsx:105-113 | When vehicle i is the first refused one, exactly i + 2 requests are sent, and the run fails naming that vehicle's model. |
| ClienteEditar.NumericId | src/pages/cliente/Editar.tsx:158 | `Number(id_cliente)` is the integer the id spells, or `null` (how NaN is serialised) otherwise. |
| ClienteEditar.Reversed | src/pages/cliente/Editar.tsx:52-53 | Reversing keeps the length and mirrors the positions. |
| ClienteEditar.DateRoundTrip | src/pages/cliente/Editar.tsx:52-53 | `D/M/Y` becomes `Y-M-D`. Splitting that on `-` gives the parts, and converting back gives the original, when no part contains `/` or `-`. |
| ClienteEditar.LoadedCarro | src/pages/cliente/Editar.tsx:59-64 | A loaded vehicle can be read iff the record is not nullish. |
| ClienteEditar.LoadedItems | src/pages/cliente/Editar.tsx:59-63 | Each loaded vehicle keeps the record's `id_carro`, `modelo` and `placa`, and takes `cor` or "" when `cor` is falsy, position by position. |
| ClienteEditar.LoadedCarros | src/pages/cliente/Editar.tsx:58-64 | Missing `carros` gives no vehicles, a list is mapped, and anything else throws. |
| ClienteEditar.FormOf | src/pages/cliente/Editar.tsx:49-65 | A form is built iff the body and its `data` are not nullish, `dt_nascimento` is a string, and the vehicles load. It then has `data.nome`, the date converted for the date input, and the loaded vehicles. |
| ClienteEditar.LoadCustomer | src/pages/cliente/Editar.tsx:34-75 | Redirects, sending nothing, iff the route id or token is missing. Otherwise it sends one GET for the id. It is still loading iff no reply has arrived, and it loads iff the reply is OK, its body parses and `FormOf` builds a form from it, which it then holds. Every other settled reply is the failed load ("Erro ao carregar dados"). |
| ClienteEditar.MissingCarrosLoadEmpty | src/pages/cliente/Editar.tsx:58-64 | A record without `carros` loads with an empty vehicle list. |
| ClienteEditar.SetCarroField | src/pages/cliente/Editar.tsx:85 | Sets a vehicle's `modelo`, `placa` or `cor` by name, and ignores any other name. |
| ClienteEditar.SetFormField | src/pages/cliente/Editar.tsx:90 | Sets `nome` or `dt_nascimento` by name, never touches the vehicles, and ignores any other name. |
| ClienteEditar.HandleChange | src/pages/cliente/Editar.tsx:83-90 | With an index, it changes only that vehicle's named field. Without one, it sets the customer field. |
| ClienteEditar.AddCarro | src/pages/cliente/Editar.tsx:93-98 | Appends one vehicle without an id, and keeps the others and the customer fields. |
| ClienteEditar.RemoveCarro | src/pages/cliente/Editar.tsx:100-114 | Sends nothing or only the DELETE of that vehicle. The form either stays as it was or loses exactly position i. |
| ClienteEditar.RemoveCarroEffect | src/pages/cliente/Editar.tsx:100-114 | A DELETE is sent only when that vehicle's `id_carro` is truthy. Once the DELETE settles with any status, or when none is needed, exactly position i is removed. |
| ClienteEditar.VehicleRequest | src/pages/cliente/Editar.tsx:138-160 | A row with a truthy `id_carro` gets PUT /carro/edit/<id>, and any other row gets POST /carro/cad. The body is an object whose `modelo`, `placa` and `cor` are the row's and whose `id_cliente` is the customer's numeric id. |
| ClienteEditar.SaveVehicles | src/pages/cliente/Editar.tsx:135-161 | The vehicle loop sends at most one request per vehicle. |
| ClienteEditar.Submit | src/pages/cliente/Editar.tsx:116-170 | The customer PUT is always the first request. |
| ClienteEditar.HandleSubmit | src/pages/cliente/Editar.tsx:116-170 | The customer PUT followed by the vehicle loop sends exactly the requests of `Submit` and ends in its outcome. |
| ClienteEditar.SaveEachVehicle | src/pages/cliente/Editar.tsx:135-161 | The `for` loop with `continue` sends exactly the requests of `SaveVehicles` and ends in its outcome. |
| ClienteEditar.SaveIgnoresStatus | src/pages/cliente/Editar.tsx:148-160 | Two servers whose replies settle alike, whatever their statuses, produce the same vehicle run. |
| ClienteEditar.StatusesIgnored | src/pages/cliente/Editar.tsx:120-166 | The whole save depends only on whether replies arrive, never on their statuses. |
| ClienteEditar.Requests | src/pages/cliente/Editar.tsx:138-160 | Maps each vehicle to its request, position by position. |
| ClienteEditar.SavedRowsInOrder | src/pages/cliente/Editar.tsx:135-161 | The vehicle requests sent are a prefix of the requests of the rows with non-blank `modelo` and `placa`, in list order. Blank rows produce none. |
| ClienteEditar.AllRowsSaved | src/pages/cliente/Editar.tsx:134-164 | When every row is readable and every needed reply arrives, exactly the non-blank rows' requests are sent and the save succeeds. |
| ClienteEditar.SubmitSendsWantedRows | src/pages/cliente/Editar.tsx:134-161 | Once the customer PUT is answered, the requests after it are a prefix of the requests of the non-blank rows, in list order, and each one carries the customer's numeric id. |
| Records.RemoveById | src/pages/cliente/Listagem.tsx:97-99 | The result is a sub-sequence of the list. Every remaining record's id differs from the target's, and every record whose id differs remains, as many times as it occurs in the list. |
| Records.RemoveByIdIdempotent | src/pages/cliente/Listagem.tsx:97-99 | Removing the same id twice equals removing it once. |
| Records.RemoveAbsentId | src/pages/operador/Listagem.tsx:83-85 | A list with no record of that id is left unchanged. |
| ClienteListagem.Expired | src/pages/cliente/Listagem.tsx:27-32 | The session without "token" and "user". Every other key and its value stays. |
| ClienteListagem.ExpiryKeepsProfile | src/pages/cliente/Listagem.tsx:29-30 | The expiry handler keeps `usuarioLogado` and leaves no token. |
| ClienteListagem.ListOf | src/pages/cliente/Listagem.tsx:51-52 | A missing `data.clientes` gives an empty list, and a list is taken as it is. |
| ClienteListagem.FetchReplacesOnlyOnSuccess | src/pages/cliente/Listagem.tsx:44-57 | The list changes only on an OK, readable reply. A 401 expires the session and keeps the list. |
| ClienteListagem.Clicked | src/pages/cliente/Listagem.tsx:72-75 | Clicking delete sets the target, opens the dialog and keeps the list. |
| ClienteListagem.NoTargetNoop | src/pages/cliente/Listagem.tsx:78 | Confirming with no target changes nothing and sends nothing. |
| ClienteListagem.Confirmed | src/pages/cliente/Listagem.tsx:77-109 | Confirming a delete either leaves the view as it was or hides the dialog and clears the target. The list either stays or becomes `RemoveById` of the target's id, so it only ever shrinks to a sub-sequence. |
| ClienteListagem.TrySettlesClosesDialog | src/pages/cliente/Listagem.tsx:105-108 | Once the try block's request settles, the dialog is hidden and the target cleared, whatever the reply. |
| ClienteListagem.MissingTokenKeepsDialog | src/pages/cliente/Listagem.tsx:79 | With no token, the session expires before the try block and the view stays as it was. |
| ClienteListagem.DeleteEffectOnList | src/pages/cliente/Listagem.tsx:90-99 | A successful delete removes exactly the customers with the target's id. A 401 or non-OK reply keeps the list. |
| ClienteListagem.RepeatedDeleteNoop | src/pages/cliente/Listagem.tsx:97-99 | Repeating a successful delete of the same customer leaves the list unchanged. |
| ClienteListagem.ListaCliente.constructor | src/pages/cliente/Listagem.tsx:17-22 | Starts with an empty list, no dialog and no target. The token is `getItem("token") ?? ""`. |
| ClienteListagem.ListaCliente.HandleTokenExpirado | src/pages/cliente/Listagem.tsx:27-32 | The store becomes `Expired` of the old store. |
| ClienteListagem.ListaCliente.FetchClientes | src/pages/cliente/Listagem.tsx:34-58 | Sends GET /cliente/ with the bearer token. The list, the store and the outcome follow the status branches. |
| ClienteListagem.ListaCliente.Mount | src/pages/cliente/Listagem.tsx:22-68 | An empty token goes to login with no fetch and nothing changed. Otherwise it fetches the list. |
| ClienteListagem.ListaCliente.HandleDeleteClick | src/pages/cliente/Listagem.tsx:72-75 | The view becomes `Clicked` of the old view. |
| ClienteListagem.ListaCliente.HandleConfirmDelete | src/pages/cliente/Listagem.tsx:77-109 | The view, the store and the outcome are those of `Confirmed`, `ConfirmedStore` and `ConfirmOutcome`. A DELETE goes out only when the try block is reached. |
| OperadorListagem.Fetched | src/pages/operador/Listagem.tsx:40-41 | A missing `data.operador` gives an empty list, and reading the body throws only when it is nullish. |
| OperadorListagem.Visible | src/pages/operador/Listagem.tsx:38-49 | A list is stored iff the body is not nullish, its list is an array and, for a non-admin with a profile, no row is nullish. What is stored is a sub-sequence of the fetched list. |
| OperadorListagem.OwnRows | src/pages/operador/Listagem.tsx:44-46 | The filter throws iff a row is nullish. Otherwise the result is a sub-sequence of the rows that holds exactly the rows whose numeric id equals the profile's, each as many times as in the list. |
| OperadorListagem.NonAdminSeesOwnRow | src/pages/operador/Listagem.tsx:43-47 | A non-admin with a profile sees exactly the fetched rows with their own numeric id, in their original order and with their multiplicity. |
| OperadorListagem.AdminSeesAll | src/pages/operador/Listagem.tsx:43 | An admin, or a session with no profile, sees the fetched list unfiltered. |
| OperadorListagem.MissingListIsEmpty | src/pages/operador/Listagem.tsx:41 | A missing `data.operador` shows an empty list. |
| OperadorListagem.VisibleIsSubsequence | src/pages/operador/Listagem.tsx:44-46 | What is shown is always a sub-sequence of what was fetched. |
| OperadorListagem.FailedFetchKeepsList | src/pages/operador/Listagem.tsx:38-53 | A fetch that fails in any way leaves the list unchanged. |
| OperadorListagem.Clicked | src/pages/operador/Listagem.tsx:64-67 | Clicking delete sets the target, opens the dialog and keeps the list. |
| OperadorListagem.NoTargetNoop | src/pages/operador/Listagem.tsx:70 | Confirming with no target changes nothing and sends nothing. |
| OperadorListagem.DeleteSettles | src/pages/operador/Listagem.tsx:81-94 | After a settled delete, the dialog is hidden and the target cleared. An OK reply leaves exactly `RemoveById` of the target's id, so every other operator keeps its place and its count. Any other reply keeps the list. |
| OperadorListagem.ListaOperador.constructor | src/pages/operador/Listagem.tsx:17-24 | Starts with an empty list, no dialog and no target. The token is `getItem("token") ?? ""` of the session store. |
| OperadorListagem.ListaOperador.FetchOperadores | src/pages/operador/Listagem.tsx:28-54 | Sends GET /operador/, and the list and the outcome follow `FetchedList` and `FetchOutcome`. |
| OperadorListagem.ListaOperador.HandleDeleteClick | src/pages/operador/Listagem.tsx:64-67 | The view becomes `Clicked` of the old view. |
| OperadorListagem.ListaOperador.HandleConfirmDelete | src/pages/operador/Listagem.tsx:69-95 | The view and the outcome are those of `Confirmed` and `ConfirmOutcome`. A DELETE goes out only with a target. |
| OperadorCadastro.Changed | src/pages/operador/Cadastro.tsx:25-31 | Only the named field changes: a text input sets its field to the typed value, and the admin checkbox sets the flag to its checked state. |
| OperadorCadastro.IndexOf | src/pages/operador/Cadastro.tsx:37 | The position of the first occurrence of a character, or the length when it does not occur. |
| OperadorCadastro.EmailOk | src/pages/operador/Cadastro.tsx:37-38 | A passing e-mail has at least five characters and exactly one `@`. |
| OperadorCadastro.EmailOkMatchesPattern | src/pages/operador/Cadastro.tsx:37-38 | The e-mail check passes iff the text is a@b.c, with a, b and c non-empty and free of white space and `@`. The split between b and c may be at any dot after the `@`. |
| OperadorCadastro.TrimKeepsValidEmail | src/pages/operador/Cadastro.tsx:37-64 | Trimming an e-mail that matches the pattern changes nothing. |
| OperadorCadastro.Validate | src/pages/operador/Cadastro.tsx:33-42 | No message iff the trimmed name and e-mail are non-empty, the e-mail passes and the password is long enough. A message is always one of the four texts. |
| OperadorCadastro.ValidateOrder | src/pages/operador/Cadastro.tsx:33-42 | Each message is reported iff its rule fails and all earlier rules pass, in the order name, e-mail, pattern, password. No message is reported iff all rules pass. |
| OperadorCadastro.ShortPasswordRefused | src/pages/operador/Cadastro.tsx:39-40 | A password shorter than four UTF-16 units, the empty one included, is refused once name and e-mail pass. |
| OperadorCadastro.ValidFormFacts | src/pages/operador/Cadastro.tsx:33-42 | A valid form has an e-mail that matches the pattern and that trimming keeps, and a password of at least four UTF-16 units. |
| OperadorCadastro.AdminToggleKeepsValidation | src/pages/operador/Cadastro.tsx:25-42 | Ticking or clearing the admin box never changes what validation reports. |
| OperadorCadastro.CreateHeaders | src/pages/operador/Cadastro.tsx:58-61 | "Authorization" is present iff the stored token is non-empty, and then holds "Bearer " + token. Content-Type is always JSON. |
| OperadorCadastro.Payload | src/pages/operador/Cadastro.tsx:62-67 | The body is an object whose `nome` and `email` are the trimmed fields, whose `senha` is the password as typed and whose `admin` is the flag. |
| OperadorFields.FieldsLookup | src/pages/operador/Cadastro.tsx:62-67 | The four-field operator object reads back its `nome`, `email`, `senha` and `admin`. |
| OperadorCadastro.ErrorText | src/pages/operador/Cadastro.tsx:71-73 | The message is `body.message` if truthy, else `body.error` if truthy, else "HTTP <status>". |
| OperadorCadastro.SubmitTo | src/pages/operador/Cadastro.tsx:44-86 | Warns, sending nothing, iff validation fails. Otherwise exactly the create request is sent, and it is pending iff no reply has arrived. An OK reply creates and navigates on, and only an OK reply does. A non-OK reply is refused with `ErrorText` of its body and status, and a transport failure ends in the catch. |
| OperadorCadastro.CreatedLandsOnLogin | src/pages/operador/Cadastro.tsx:79 | As written, a successful creation navigates to /operador, which resolves to the login redirect. |
| OperadorCadastro.IntendedShowsOperatorList | src/pages/operador/Cadastro.tsx:78-79 | Navigating to /app/operador instead shows the operator list to a signed-in session. |
| OperadorCadastro.OperadorCadastroPage.constructor | src/pages/operador/Cadastro.tsx:14-20 | Starts with the empty form and `submitting` false. |
| OperadorCadastro.OperadorCadastroPage.HandleChange | src/pages/operador/Cadastro.tsx:25-31 | The form becomes `Changed` of the old form. |
| OperadorCadastro.OperadorCadastroPage.HandleSubmit | src/pages/operador/Cadastro.tsx:44-86 | Sends what `Submit` sends, as written, so a creation navigates to /operador. `submitting` is untouched when validation fails, and stays raised only while the request is pending. |
| OperadorEditar.LoadedForm | src/pages/operador/Editar.tsx:46-54 | The form can be built iff the body and its `data` are not nullish. It has the four form keys. `nome`/`email` default to "" and `admin` to false, and `senha` is always "". |
| OperadorEditar.LoadTo | src/pages/operador/Editar.tsx:31-65 | Redirects, sending nothing, iff the route id or token is missing. Otherwise it sends one GET for the id. It is still loading iff no reply has arrived, and it loads iff the reply is OK and the body yields a form, which it then holds. Every other settled reply is the failed load ("Erro ao carregar operador", back to the list). |
| OperadorEditar.MissingIdLandsOnLogin | src/pages/operador/Editar.tsx:32-35 | As written, a missing id navigates to /operador, which resolves to the login redirect. |
| OperadorEditar.IntendedMissingIdShowsList | src/pages/operador/Editar.tsx:32-35 | Navigating to /app/operador instead shows the operator list to a signed-in session. |
| OperadorEditar.Changed | src/pages/operador/Editar.tsx:70-75 | The named field takes `checked` for a checkbox, `value` otherwise. Every other field is kept and the key order is unchanged. A new name is appended. |
| OperadorEditar.EditingKeepsFormKeys | src/pages/operador/Editar.tsx:70-75 | Editing one of the form's fields keeps exactly its four keys. |
| OperadorEditar.Payload | src/pages/operador/Editar.tsx:88-89 | An empty or all-white-space `senha` is absent from the payload. Any other string, or a nullish `senha`, leaves the form copied as it is. Every other field is copied unchanged. A non-string `senha` throws. |
| OperadorEditar.Submit | src/pages/operador/Editar.tsx:81-110 | Skipped, sending nothing, iff the route id or token is missing. Otherwise one PUT /operador/edit/<id> with the payload is sent. It succeeds, going to /app/operador, iff the reply is OK, and it is pending iff no reply has arrived. It fails ("Erro ao atualizar operador") iff the payload throws or a reply other than OK arrives. |
| OperadorEditar.LoadedPasswordNotSent | src/pages/operador/Editar.tsx:49-97 | Saving a freshly loaded form sends `nome`, `email` and `admin` only, so the stored password is kept. |
| OperadorEditar.TypedPasswordSentAsTyped | src/pages/operador/Editar.tsx:88-97 | A non-blank typed password is sent without trimming, with every other field as it is in the form. |
| OperadorEditar.OperadorEditarPage.constructor | src/pages/operador/Editar.tsx:14-26 | Starts with the empty form, `loading` and not `submitting`. The token is the stored one. |
| OperadorEditar.OperadorEditarPage.Mount | src/pages/operador/Editar.tsx:31-65 | Runs `LoadOperador`, as written, so a missing id or token navigates to /operador. The form is replaced only by a loaded form. `loading` is lowered once the fetch settles. |
| OperadorEditar.OperadorEditarPage.HandleChange | src/pages/operador/Editar.tsx:70-75 | The form becomes `Changed` of the old form. |
| OperadorEditar.OperadorEditarPage.HandleSubmit | src/pages/operador/Editar.tsx:81-110 | Sends what `Submit` sends. `submitting` is untouched when skipped, and stays raised only while the request is pending. |

The transition functions the page methods are proved against are
`ClienteListagem.FetchedList`, `FetchOutcome`, `Confirmed`, `ConfirmedStore`
and `ConfirmOutcome`; `OperadorListagem.FetchedList`, `FetchOutcome`,
`Confirmed` and `ConfirmOutcome`; `OperadorCadastro.Submit` and
`OperadorEditar.LoadOperador`. They follow the handlers branch by branch. What
they mean is stated by the lemmas in the table: `FetchReplacesOnlyOnSuccess`,
`DeleteEffectOnList`, `DeleteSettles`, `FailedFetchKeepsList` and the rest. The
last two functions, and the corrected `SubmitIntended` and `LoadIntended`, fix
the navigation target of `SubmitTo` and `LoadTo`, and the rows of those two
state their contracts. `ClienteEditar.DateForInput` is the date conversion
whose round trip `DateRoundTrip` proves. `ClienteEditar.IsBlank` and `Wanted`
are the row filter of the vehicle loop, stated by `SavedRowsInOrder`,
`AllRowsSaved` and `SubmitSendsWantedRows`.

## Findings

| source | as written | input that shows it | evidently intended | confidence | as-written member | corrected member |
|---|---|---|---|---|---|---|
| src/pages/operador/Cadastro.tsx:79 | navigates to `/operador` after a successful creation | any creation answered OK, with a token in the session | the operator list `/app/operador`, as the comment before the call says | not executed | OperadorCadastro.CreatedLandsOnLogin | OperadorCadastro.IntendedShowsOperatorList |
| src/pages/operador/Editar.tsx:34 | navigates to `/operador` when the route id or token is missing | a page mounted without an id or token; the route table never mounts it so (the `:id_operador` segment of src/App.tsx:50 is never empty and the guard at src/App.tsx:41 has required a token), so the branch is reached only when the token disappears after the guard, where the login page is arguably the right target | `/app/operador`, where the failed load at line 58 goes | not executed; low, since the router does not reach this branch with a token | OperadorEditar.MissingIdLandsOnLogin | OperadorEditar.IntendedMissingIdShowsList |

`/operador` is not in the route table of `src/App.tsx`, so both navigations
end on the login redirect. The page classes follow the code as written
(`OperadorCadastro.Submit`, `OperadorEditar.LoadOperador`); the corrected
targets appear only in `OperadorCadastro.SubmitIntended` and
`OperadorEditar.LoadIntended`.

## Left out

- Rendering is not modelled: JSX, Bootstrap widgets, the spinner, modal visuals, toasts and `console.error`. Each outcome tag records which toast or navigation the code reaches.
- Real `fetch`, `import.meta.env` and `async` scheduling are not modelled. The base URL is a parameter, the server is a reply oracle, and handlers run to completion one after another. A pending request is an outcome of its own.
- React hook semantics are not modelled: effect dependencies, StrictMode double runs, batched state updates, and stale closures over `form` or the selected target. Each handler reads the state as it stands when it runs.
- `JSON.parse` is not modelled. The operator list takes the already-parsed `isAdmin` and `usuarioLogado` as values, and the customer list's `isAdmin` is unused.
- `JsValue.Num` holds integers only, so a fractional JSON number in a body or a payload is not represented.
- JsValue.Lookup: reads the first binding of a key in an object, where `JSON.parse` keeps the last one of a duplicated key. Bodies with a repeated key are therefore read differently.
- `Number(x)` is modelled only for integer decimal text. Decimals, exponents, hex and `Infinity` are treated as NaN.
- `===` on two objects or arrays is taken to be false, since reference identity is not modelled.
- A truthy list field (`data.clientes`, `data.operador`) that is not an array is treated as a failed load, where JavaScript would store it.
- `response.text()` of a refused customer delete only feeds the console, so it is not modelled.
- OperadorCadastro.Changed: an event whose name and input type do not match one of the page's four inputs leaves the form unchanged, because the typed form has no place for a text value named `admin` or a checkbox named `nome`.
- Login.AnaLogsIn: the example does not state the profile text for the sample body. `Login.SuccessfulLoginWrites` states it for every body.
- React Router internals are not modelled: case-insensitive matching and `<Navigate>`. The resolver matches the table's paths exactly, with `:id` as any non-empty segment. The edit pages take their id as a parameter rather than reading it from the path.
- `src/pages/carros/Listagem` is imported by the route table but is not part of this model. Its route resolves like any other page.
- `src/pages/PrivateLayout.tsx`, `src/components/NavBar.tsx` and `src/main.tsx` are only markup and bootstrapping, so they are not modelled.
