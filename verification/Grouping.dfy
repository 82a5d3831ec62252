/** Records grouped by a key: the keys by first appearance, and sums over the groups. */
module Grouping {
  import opened Sums

  /** The keys of the records, by first appearance. */
  function FirstSeen<T>(rs: seq<T>, key: T -> string): seq<string> {
    if rs == [] then []
    else
      var order, s := FirstSeen(rs[..|rs| - 1], key), key(rs[|rs| - 1]);
      if s in order then order else order + [s]
  }

  // ---------- the order ----------

  /** The first record of a key. */
  ghost predicate FirstAt<T>(rs: seq<T>, key: T -> string, s: string, i: nat) {
    i < |rs| && key(rs[i]) == s && forall j | 0 <= j < i :: key(rs[j]) != s
  }

  lemma {:induction false} FirstExists<T>(rs: seq<T>, key: T -> string, s: string) returns (i: nat)
    requires s in FirstSeen(rs, key)
    ensures FirstAt(rs, key, s, i)
  {
    if s in FirstSeen(rs[..|rs| - 1], key) {
      i := FirstExists(rs[..|rs| - 1], key, s);
    } else {
      EveryKeySeen(rs[..|rs| - 1], key);
      i := |rs| - 1;
    }
  }

  lemma {:induction false} EveryKeySeen<T>(rs: seq<T>, key: T -> string)
    ensures forall i | 0 <= i < |rs| :: key(rs[i]) in FirstSeen(rs, key)
  {
    if rs != [] {
      EveryKeySeen(rs[..|rs| - 1], key);
    }
  }

  lemma FirstUnique<T>(rs: seq<T>, key: T -> string, s: string, i: nat, j: nat)
    requires FirstAt(rs, key, s, i) && FirstAt(rs, key, s, j)
    ensures i == j
  {
  }

  lemma {:induction false} ListedOnce<T>(rs: seq<T>, key: T -> string)
    ensures forall a, b | 0 <= a < b < |FirstSeen(rs, key)| :: FirstSeen(rs, key)[a] != FirstSeen(rs, key)[b]
  {
    if rs != [] {
      ListedOnce(rs[..|rs| - 1], key);
    }
  }

  lemma {:induction false} ListedInOrder<T>(rs: seq<T>, key: T -> string, a: nat, b: nat, i: nat, j: nat)
    requires a < b < |FirstSeen(rs, key)|
    requires FirstAt(rs, key, FirstSeen(rs, key)[a], i) && FirstAt(rs, key, FirstSeen(rs, key)[b], j)
    ensures i < j
  {
    var init, order, order' := rs[..|rs| - 1], FirstSeen(rs[..|rs| - 1], key), FirstSeen(rs, key);
    var k := FirstExists(init, key, order[a]);
    FirstUnique(rs, key, order'[a], i, k);
    if b < |order| {
      var l := FirstExists(init, key, order[b]);
      FirstUnique(rs, key, order'[b], j, l);
      ListedInOrder(init, key, a, b, k, l);
    } else {
      EveryKeySeen(init, key);
      FirstUnique(rs, key, order'[b], j, |init|);
    }
  }

  /** Exactly the keys of the records are listed, each once, in the order of their first records. */
  lemma ListedOnceInOrder<T>(rs: seq<T>, key: T -> string)
    ensures forall s :: s in FirstSeen(rs, key) <==> exists i :: 0 <= i < |rs| && key(rs[i]) == s
    ensures forall a, b | 0 <= a < b < |FirstSeen(rs, key)| :: FirstSeen(rs, key)[a] != FirstSeen(rs, key)[b]
    ensures forall a, b, i: nat, j: nat | 0 <= a < b < |FirstSeen(rs, key)|
                             && FirstAt(rs, key, FirstSeen(rs, key)[a], i) && FirstAt(rs, key, FirstSeen(rs, key)[b], j) :: i < j
  {
    EveryKeySeen(rs, key);
    ListedOnce(rs, key);
    forall s | s in FirstSeen(rs, key) ensures exists i :: 0 <= i < |rs| && key(rs[i]) == s {
      var i := FirstExists(rs, key, s);
    }
    forall a, b, i: nat, j: nat | 0 <= a < b < |FirstSeen(rs, key)|
                             && FirstAt(rs, key, FirstSeen(rs, key)[a], i) && FirstAt(rs, key, FirstSeen(rs, key)[b], j)
      ensures i < j
    {
      ListedInOrder(rs, key, a, b, i, j);
    }
  }

  // ---------- the records of a key ----------

  function Of<T>(rs: seq<T>, key: T -> string, s: string): seq<T> {
    if rs == [] then []
    else Of(rs[..|rs| - 1], key, s) + if key(rs[|rs| - 1]) == s then [rs[|rs| - 1]] else []
  }

  lemma OfLast<T>(rs: seq<T>, key: T -> string, s: string)
    requires rs != []
    ensures Of(rs, key, s) == if key(rs[|rs| - 1]) == s then Of(rs[..|rs| - 1], key, s) + [rs[|rs| - 1]]
                         else Of(rs[..|rs| - 1], key, s)
  {
  }

  // ---------- conservation over the keys ----------

  function PerKey<T>(rs: seq<T>, key: T -> string, f: T -> real): string -> real {
    s => SumOf(Of(rs, key, s), f)
  }

  lemma {:induction false} OneTermGrows(order: seq<string>, s: string, g: string -> real, g': string -> real, c: real)
    requires forall a, b | 0 <= a < b < |order| :: order[a] != order[b]
    requires g'(s) == g(s) + c && forall t | t != s :: g'(t) == g(t)
    ensures SumOf(order, g') == SumOf(order, g) + if s in order then c else 0.0
  {
    if order != [] {
      assert s in order <==> s == order[0] || s in order[1..];
      OneTermGrows(order[1..], s, g, g', c);
      if s == order[0] {
        assert s !in order[1..];
      }
    }
  }

  lemma PerKeyGrows<T>(rs: seq<T>, key: T -> string, f: T -> real, t: string)
    requires rs != []
    ensures PerKey(rs, key, f)(t)
         == PerKey(rs[..|rs| - 1], key, f)(t) + if t == key(rs[|rs| - 1]) then f(rs[|rs| - 1]) else 0.0
  {
    OfLast(rs, key, t);
    SumOfSnoc(Of(rs[..|rs| - 1], key, t), rs[|rs| - 1], f);
  }

  /** One key's figure gains c, the others stay. */
  ghost predicate GainsAt(g: string -> real, g': string -> real, s: string, c: real) {
    forall t :: g'(t) == g(t) + if t == s then c else 0.0
  }

  lemma EveryKeyGrows<T>(rs: seq<T>, key: T -> string, f: T -> real)
    requires rs != []
    ensures GainsAt(PerKey(rs[..|rs| - 1], key, f), PerKey(rs, key, f), key(rs[|rs| - 1]), f(rs[|rs| - 1]))
  {
    var init, r := rs[..|rs| - 1], rs[|rs| - 1];
    forall t: string
      ensures PerKey(rs, key, f)(t) == PerKey(init, key, f)(t) + if t == key(r) then f(r) else 0.0
    {
      PerKeyGrows(rs, key, f, t);
    }
  }

  lemma SumOfLast<T>(rs: seq<T>, f: T -> real)
    requires rs != []
    ensures SumOf(rs, f) == SumOf(rs[..|rs| - 1], f) + f(rs[|rs| - 1])
  {
    assert rs == rs[..|rs| - 1] + [rs[|rs| - 1]];
    SumOfSnoc(rs[..|rs| - 1], rs[|rs| - 1], f);
  }

  /** Summed over the listed keys, any figure of the records adds up to that of all records. */
  lemma {:induction false} KeysAddUp<T>(rs: seq<T>, key: T -> string, f: T -> real)
    ensures SumOf(FirstSeen(rs, key), PerKey(rs, key, f)) == SumOf(rs, f)
  {
    if rs != [] {
      var init, r := rs[..|rs| - 1], rs[|rs| - 1];
      KeysAddUp(init, key, f);
      ListedOnce(init, key);
      SumOfLast(rs, f);
      EveryKeyGrows(rs, key, f);
      NoRecords(init, key, key(r));
      OneTermGrowsOrJoins(FirstSeen(init, key), key(r), PerKey(init, key, f), PerKey(rs, key, f), f(r));
    }
  }

  /** The sum over the keys gains c, whether the key of the new record was listed or joins the list. */
  lemma OneTermGrowsOrJoins(order: seq<string>, s: string, g: string -> real, g': string -> real, c: real)
    requires forall a, b | 0 <= a < b < |order| :: order[a] != order[b]
    requires GainsAt(g, g', s, c) && (s !in order ==> g(s) == 0.0)
    ensures SumOf(if s in order then order else order + [s], g') == SumOf(order, g) + c
  {
    OneTermGrows(order, s, g, g', c);
    SumOfSnoc(order, s, g');
  }

  lemma {:induction false} NoRecords<T>(rs: seq<T>, key: T -> string, s: string)
    ensures s !in FirstSeen(rs, key) ==> Of(rs, key, s) == []
  {
    if rs != [] {
      NoRecords(rs[..|rs| - 1], key, s);
    }
  }

  // ---------- a breakdown that skips the empty key ----------

  /** The records whose key is not empty, or those whose key is. */
  function Named<T>(rs: seq<T>, key: T -> string, named: bool): seq<T> {
    if rs == [] then []
    else
      var r := rs[|rs| - 1];
      Named(rs[..|rs| - 1], key, named) + if (key(r) != "") == named then [r] else []
  }

  /** A total g(t) for exactly the listed keys. */
  ghost predicate TotalsFor(totals: map<string, real>, keys: seq<string>, g: string -> real) {
    (forall t :: t in totals <==> t in keys) && forall t | t in totals :: totals[t] == g(t)
  }

  /** A total for exactly the non-empty keys of the records, each that of the key's records. */
  ghost predicate Breakdown<T>(totals: map<string, real>, rs: seq<T>, key: T -> string, f: T -> real) {
    TotalsFor(totals, FirstSeen(Named(rs, key, true), key), PerKey(Named(rs, key, true), key, f))
  }

  /** c added under a key. */
  function Plus(totals: map<string, real>, s: string, c: real): map<string, real> {
    totals[s := (if s in totals then totals[s] else 0.0) + c]
  }

  lemma TotalsGrow(totals: map<string, real>, keys: seq<string>, g: string -> real, g': string -> real, s: string, c: real)
    requires TotalsFor(totals, keys, g) && GainsAt(g, g', s, c) && (s !in keys ==> g(s) == 0.0)
    ensures TotalsFor(Plus(totals, s, c), if s in keys then keys else keys + [s], g')
  {
  }

  lemma NamedSnoc<T>(rs: seq<T>, r: T, key: T -> string)
    ensures Named(rs + [r], key, true) == if key(r) != "" then Named(rs, key, true) + [r] else Named(rs, key, true)
  {
    assert (rs + [r])[..|rs|] == rs;
  }

  /** One record more adds to its key's total, or to none. */
  lemma BreakdownGrows<T>(totals: map<string, real>, rs: seq<T>, r: T, key: T -> string, f: T -> real)
    requires Breakdown(totals, rs, key, f)
    ensures Breakdown(if key(r) != "" then Plus(totals, key(r), f(r)) else totals, rs + [r], key, f)
  {
    NamedSnoc(rs, r, key);
    if key(r) != "" {
      var before := Named(rs, key, true);
      var after := before + [r];
      assert after[..|after| - 1] == before;
      EveryKeyGrows(after, key, f);
      NoRecords(before, key, key(r));
      TotalsGrow(totals, FirstSeen(before, key), PerKey(before, key, f), PerKey(after, key, f), key(r), f(r));
    }
  }

  /** The cost engine's add, over one dimension. */
  method Totals<T>(rs: seq<T>, key: T -> string, f: T -> real) returns (totals: map<string, real>)
    ensures Breakdown(totals, rs, key, f)
  {
    totals := map[];
    for i := 0 to |rs|
      invariant Breakdown(totals, rs[..i], key, f)
    {
      BreakdownGrows(totals, rs[..i], rs[i], key, f);
      assert rs[..i + 1] == rs[..i] + [rs[i]];
      if key(rs[i]) != "" {
        totals := Plus(totals, key(rs[i]), f(rs[i]));
      }
    }
    assert rs[..|rs|] == rs;
  }

  lemma {:induction false} NamedPartition<T>(rs: seq<T>, key: T -> string, f: T -> real)
    ensures SumOf(rs, f) == SumOf(Named(rs, key, true), f) + SumOf(Named(rs, key, false), f)
  {
    if rs != [] {
      var init, r := rs[..|rs| - 1], rs[|rs| - 1];
      NamedPartition(init, key, f);
      SumOfLast(rs, f);
      SumOfSnoc(Named(init, key, true), r, f);
      SumOfSnoc(Named(init, key, false), r, f);
      assert Named(init, key, key(r) == "") + [] == Named(init, key, key(r) == "");
    }
  }

  /** The totals of the keys and the records with an empty key account for all records. */
  lemma BreakdownAddsUp<T>(rs: seq<T>, key: T -> string, f: T -> real)
    ensures SumOf(FirstSeen(Named(rs, key, true), key), PerKey(Named(rs, key, true), key, f))
            + SumOf(Named(rs, key, false), f) == SumOf(rs, f)
  {
    NamedPartition(rs, key, f);
    KeysAddUp(Named(rs, key, true), key, f);
  }
}
