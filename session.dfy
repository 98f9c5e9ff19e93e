/** The browser's local storage as the pages use it: a map from key to
    string that handlers read and update in place. */
module Session {
  import opened Wrappers

  type Items = map<string, string>

  const TokenKey: string := "token"
  const IsAdminKey: string := "isAdmin"
  const ProfileKey: string := "usuarioLogado"

  /** `localStorage.getItem(key)`: `None` is `null`. */
  function Read(items: Items, key: string): (r: Option<string>)
    ensures r.Some? <==> key in items
    ensures r.Some? ==> r.value == items[key]
  {
    if key in items then Some(items[key]) else None
  }

  /** `localStorage.getItem("token")` is truthy: present and not empty. */
  predicate HasToken(items: Items)
  {
    TokenKey in items && items[TokenKey] != ""
  }

  class SessionStore {
    var items: Items

    constructor (initial: Items)
      ensures items == initial
    {
      items := initial;
    }

    method GetItem(key: string) returns (v: Option<string>)
      ensures v == Read(items, key)
    {
      v := if key in items then Some(items[key]) else None;
    }

    method SetItem(key: string, value: string)
      modifies this
      ensures items == old(items)[key := value]
    {
      items := items[key := value];
    }

    method RemoveItem(key: string)
      modifies this
      ensures items == old(items) - {key}
    {
      items := items - {key};
    }
  }
}
