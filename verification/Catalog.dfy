/** The model catalog (experimentation/internal/catalog/catalog.go). */
module Catalog {

  /** The fields of a catalog entry that routing and accounting read. Prices are EUR per million tokens. */
  datatype Model = Model(id: string, apiModel: string, provider: string, zone: string, managed: bool,
                         isReal: bool, inPerMillion: real, outPerMillion: real, qualityPrior: real,
                         latencyPriorMS: real)

  type Models = map<string, Model>

  /** What Go reads from a map at an absent key. */
  const ZERO_MODEL := Model("", "", "", "", false, false, 0.0, 0.0, 0.0, 0.0)

  function Lookup(models: Models, id: string): Model {
    if id in models then models[id] else ZERO_MODEL
  }

  ghost predicate Keyed(models: Models) {
    forall id | id in models :: models[id].id == id
  }

  /** No entry from k on, up to i, repeats the ID at k. */
  ghost predicate LastOfID(list: seq<Model>, i: nat, k: nat)
    requires k < i <= |list|
  {
    forall j | k < j < i :: list[j].id != list[k].id
  }

  /** The entry at k is in the map, and is what its ID reads. */
  predicate Held(m: Models, x: Model) {
    x.id in m && m[x.id] == x
  }

  /** The first i entries, the last of each ID. */
  ghost predicate Holds(m: Models, list: seq<Model>, i: nat)
    requires i <= |list|
  {
    && Keyed(m)
    && (forall k | 0 <= k < i :: list[k].id in m)
    && (forall id | id in m :: m[id] in list[..i])
    && forall k | 0 <= k < i && LastOfID(list, i, k) :: Held(m, list[k])
  }

  lemma HoldsNext(m: Models, list: seq<Model>, i: nat)
    requires i < |list| && Holds(m, list, i)
    ensures Holds(m[list[i].id := list[i]], list, i + 1)
  {
    var m' := m[list[i].id := list[i]];
    forall id | id in m' ensures m'[id] in list[..i + 1] {
      if id == list[i].id {
        assert list[..i + 1][i] == list[i];
      } else {
        var j :| 0 <= j < i && list[..i][j] == m[id];
        assert list[..i + 1][j] == m[id];
      }
    }
    forall k | 0 <= k < i + 1 && LastOfID(list, i + 1, k) ensures Held(m', list[k]) {
      if k < i {
        assert LastOfID(list, i, k) && list[i].id != list[k].id;
      }
    }
  }

  /** The last entry of an ID wins. */
  method ByID(list: seq<Model>) returns (m: Models)
    ensures Keyed(m)
    ensures forall x | x in list :: x.id in m
    ensures forall id | id in m :: m[id] in list
    ensures forall k | 0 <= k < |list| && LastOfID(list, |list|, k) :: Held(m, list[k])
  {
    m := map[];
    for i := 0 to |list|
      invariant Holds(m, list, i)
    {
      HoldsNext(m, list, i);
      m := m[list[i].id := list[i]];
    }
    assert list[..|list|] == list;
  }
}
