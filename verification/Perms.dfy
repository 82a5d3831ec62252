/** Rearrangements of sequences, stated through the multiset of elements. */
module Perms {

  /** A rearrangement has the same length and the same elements. */
  lemma PermFacts<T>(s: seq<T>, t: seq<T>)
    requires multiset(s) == multiset(t)
    ensures |s| == |t|
    ensures forall x | x in s :: x in t
    ensures forall x | x in t :: x in s
  {
    assert |s| == |multiset(s)| == |multiset(t)| == |t|;
    forall x | x in s ensures x in t {
      assert x in multiset(t);
    }
    forall x | x in t ensures x in s {
      assert x in multiset(s);
    }
  }

  /** Taking one element out of a sequence takes one copy of it out of its multiset. */
  lemma RemoveAt<T>(s: seq<T>, k: nat)
    requires k < |s|
    ensures multiset(s[..k] + s[k + 1..]) == multiset(s) - multiset{s[k]}
  {
    assert s == s[..k] + ([s[k]] + s[k + 1..]);
  }

  lemma RemoveFirst<T>(s: seq<T>)
    requires s != []
    ensures multiset(s[1..]) == multiset(s) - multiset{s[0]}
  {
    assert s == [s[0]] + s[1..];
  }

  /** A bag built up additively from a sequence does not depend on the order of the sequence. */
  lemma {:induction false} AdditivePerm<T(!new), U>(s: seq<T>, t: seq<T>, f: seq<T> -> multiset<U>)
    requires forall a, b :: f(a + b) == f(a) + f(b)
    requires multiset(s) == multiset(t)
    ensures f(s) == f(t)
  {
    PermFacts(s, t);
    if s != [] {
      assert s[0] in t;
      var k :| 0 <= k < |t| && t[k] == s[0];
      RemoveFirst(s);
      RemoveAt(t, k);
      AdditivePerm(s[1..], t[..k] + t[k + 1..], f);
      Around(t, k, f);
      Around(s, 0, f);
      assert s[..0] + s[1..] == s[1..];
    } else {
      assert s == t;
    }
  }

  lemma Around<T(!new), U>(s: seq<T>, k: nat, f: seq<T> -> multiset<U>)
    requires forall a, b :: f(a + b) == f(a) + f(b)
    requires k < |s|
    ensures f(s) == f(s[..k] + s[k + 1..]) + f([s[k]])
  {
    assert s == s[..k] + ([s[k]] + s[k + 1..]);
    var x, y, z := f(s[..k]), f([s[k]]), f(s[k + 1..]);
    assert f(s) == x + (y + z);
    assert f(s[..k] + s[k + 1..]) == x + z;
    assert x + (y + z) == (x + z) + y;
  }

  // ---------- repetitions ----------

  ghost predicate Distinct<T>(s: seq<T>) {
    forall i, j | 0 <= i < j < |s| :: s[i] != s[j]
  }

  lemma AtLeastTwice<T>(s: seq<T>, i: nat, j: nat)
    requires i < j < |s| && s[i] == s[j]
    ensures multiset(s)[s[i]] >= 2
  {
    RemoveAt(s, j);
    var rest := s[..j] + s[j + 1..];
    assert rest[i] == s[i] && s[i] in multiset(rest);
  }

  lemma AtMostOnce<T>(s: seq<T>, k: nat)
    requires k < |s| && Distinct(s)
    ensures multiset(s)[s[k]] == 1
  {
    RemoveAt(s, k);
    var rest := s[..k] + s[k + 1..];
    assert s[k] !in multiset(rest) by {
      assert forall i | 0 <= i < |rest| :: rest[i] != s[k];
    }
  }

  /** Rearranging brings no repetition. */
  lemma DistinctPerm<T>(s: seq<T>, t: seq<T>)
    requires Distinct(s) && multiset(s) == multiset(t)
    ensures Distinct(t)
  {
    PermFacts(s, t);
    forall i, j | 0 <= i < j < |t| ensures t[i] != t[j] {
      if t[i] == t[j] {
        AtLeastTwice(t, i, j);
        assert t[i] in s;
        var k :| 0 <= k < |s| && s[k] == t[i];
        AtMostOnce(s, k);
      }
    }
  }
}
