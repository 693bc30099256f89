/** The in-memory stores: ordered sequences of plain objects, searched by
    their `id` property the way `find`, `findIndex` and `filter` do. */
module Records {
  import opened Js

  /** `record.id === id` for a route id, which is always a string. */
  predicate HasId(r: Record, id: string) {
    Get(r, "id") == Str(id)
  }

  /** Some stored record has this id. */
  predicate ContainsId(store: seq<Record>, id: string) {
    exists j :: 0 <= j < |store| && HasId(store[j], id)
  }

  /** No two stored records carry the same string id. */
  ghost predicate UniqueIds(store: seq<Record>) {
    forall i, j, id :: 0 <= i < |store| && 0 <= j < |store| && HasId(store[i], id) && HasId(store[j], id) ==> i == j
  }

  /** The index of the first record with this id (`findIndex`; `find` and
      `filter(...)[0]` return the record at this index), or None. */
  function FindById(store: seq<Record>, id: string): (k: Option<nat>)
    ensures k.Some? ==> k.value < |store| && HasId(store[k.value], id)
    ensures k.Some? ==> forall j :: 0 <= j < k.value ==> !HasId(store[j], id)
    ensures k.None? <==> !ContainsId(store, id)
  {
    if |store| == 0 then None
    else if HasId(store[0], id) then Some(0)
    else match FindById(store[1..], id)
      case None => None
      case Some(k) => Some(k + 1)
  }

  /** `splice(k, 1)`: the store without its k-th record. */
  function RemoveAt(store: seq<Record>, k: nat): (r: seq<Record>)
    requires k < |store|
    ensures |r| == |store| - 1
    ensures forall j :: 0 <= j < k ==> r[j] == store[j]
    ensures forall j :: k <= j < |r| ==> r[j] == store[j + 1]
  {
    store[..k] + store[k + 1..]
  }

  /** Removing the record found for an id from a store with unique ids
      leaves no record with that id, and keeps the ids unique. */
  lemma RemoveFoundDropsId(store: seq<Record>, id: string, k: nat)
    requires UniqueIds(store)
    requires k < |store| && HasId(store[k], id)
    ensures !ContainsId(RemoveAt(store, k), id)
    ensures UniqueIds(RemoveAt(store, k))
  {
  }

  /** Appending a record whose id is not yet stored keeps the ids unique. */
  lemma AppendFreshKeepsUnique(store: seq<Record>, r: Record, id: string)
    requires UniqueIds(store)
    requires !ContainsId(store, id) && HasId(r, id)
    ensures UniqueIds(store + [r])
  {
  }

  /** Replacing the record at k by one with the same id keeps the ids unique. */
  lemma ReplaceSameIdKeepsUnique(store: seq<Record>, k: nat, r: Record)
    requires UniqueIds(store)
    requires k < |store| && Get(r, "id") == Get(store[k], "id")
    ensures UniqueIds(store[k := r])
  {
  }
}
