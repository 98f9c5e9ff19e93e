/** The operator object `{ nome, email, senha, admin }` that both operator
    forms build and send. */
module OperadorFields {
  import opened JsValue

  /** The form object `{ nome, email, senha, admin }`. */
  function Fields(nome: Value, email: Value, senha: Value, admin: Value): seq<Member>
  {
    [Member("nome", nome), Member("email", email), Member("senha", senha), Member("admin", admin)]
  }

  /** Each of the four keys reads its own value. */
  lemma FieldsLookup(nome: Value, email: Value, senha: Value, admin: Value)
    ensures Lookup(Fields(nome, email, senha, admin), "nome") == nome
    ensures Lookup(Fields(nome, email, senha, admin), "email") == email
    ensures Lookup(Fields(nome, email, senha, admin), "senha") == senha
    ensures Lookup(Fields(nome, email, senha, admin), "admin") == admin
  {
    var last := [Member("admin", admin)];
    var tail := [Member("senha", senha)] + last;
    var mid := [Member("email", email)] + tail;
    assert Fields(nome, email, senha, admin) == [Member("nome", nome)] + mid;
    // the four keys already differ in their first letters
    assert "nome"[0] == 'n' && "email"[0] == 'e' && "senha"[0] == 's' && "admin"[0] == 'a';
    LookupHead(Member("nome", nome), mid, "nome");
    LookupHead(Member("nome", nome), mid, "email");
    LookupHead(Member("nome", nome), mid, "senha");
    LookupHead(Member("nome", nome), mid, "admin");
    LookupHead(Member("email", email), tail, "email");
    LookupHead(Member("email", email), tail, "senha");
    LookupHead(Member("email", email), tail, "admin");
    LookupHead(Member("senha", senha), last, "senha");
    LookupHead(Member("senha", senha), last, "admin");
    LookupHead(Member("admin", admin), [], "admin");
  }
}
