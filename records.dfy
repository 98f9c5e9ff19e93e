/** Records received from the server, and the removal-by-id the list pages
    perform after a successful delete: `list.filter(r => r[key] !== id)`. */
module Records {
  import opened JsValue
  import Lists

  /** The record's id does not equal `id` in the sense of `===`. */
  predicate Differs(r: Value, key: string, id: Value)
  {
    !StrictEquals(OptGet(r, key), id)
  }

  /** The list without the records whose `key` is `===` to `id`; the others
      stay, in their order, and nothing is removed twice. */
  function RemoveById(list: seq<Value>, key: string, id: Value): (r: seq<Value>)
    ensures Lists.IsSubsequence(r, list)
    ensures forall x :: x in r ==> Differs(x, key, id)
    ensures forall x :: x in list && Differs(x, key, id) ==> x in r
    ensures forall x :: multiset(r)[x] == if Differs(x, key, id) then multiset(list)[x] else 0
  {
    var keep := (x: Value) => Differs(x, key, id);
    Lists.FilterIsSubsequence(list, keep);
    Lists.FilterCounts(list, keep);
    forall x | x in list && Differs(x, key, id)
      ensures x in Lists.Filter(list, keep)
    {
      Lists.FilterKeeps(list, keep, x);
    }
    Lists.Filter(list, keep)
  }

  /** Removing the same id a second time changes nothing. */
  lemma RemoveByIdIdempotent(list: seq<Value>, key: string, id: Value)
    ensures RemoveById(RemoveById(list, key, id), key, id) == RemoveById(list, key, id)
  {
    var keep := (x: Value) => Differs(x, key, id);
    Lists.FilterIdempotent(list, keep);
  }

  /** A list holding no record with that id is left as it is. */
  lemma RemoveAbsentId(list: seq<Value>, key: string, id: Value)
    requires forall x :: x in list ==> Differs(x, key, id)
    ensures RemoveById(list, key, id) == list
  {
    var keep := (x: Value) => Differs(x, key, id);
    Lists.FilterAllKept(list, keep);
  }
}
