/** Finite sums of reals, over the elements of a sequence and over an index range. */
module Sums {
  import opened Perms

  /** The sum of f over the elements of s, with multiplicity. */
  function SumOf<T>(s: seq<T>, f: T -> real): real {
    if s == [] then 0.0 else f(s[0]) + SumOf(s[1..], f)
  }

  lemma {:induction false} SumOfConcat<T>(s: seq<T>, t: seq<T>, f: T -> real)
    ensures SumOf(s + t, f) == SumOf(s, f) + SumOf(t, f)
  {
    if s == [] {
      assert s + t == t;
    } else {
      assert (s + t)[1..] == s[1..] + t;
      SumOfConcat(s[1..], t, f);
    }
  }

  lemma SumOfSnoc<T>(s: seq<T>, x: T, f: T -> real)
    ensures SumOf(s + [x], f) == SumOf(s, f) + f(x)
  {
    SumOfConcat(s, [x], f);
  }

  lemma {:induction false} SumOfCong<T>(s: seq<T>, f: T -> real, g: T -> real)
    requires forall x | x in s :: f(x) == g(x)
    ensures SumOf(s, f) == SumOf(s, g)
  {
    if s != [] {
      SumOfCong(s[1..], f, g);
    }
  }

  lemma {:induction false} SumOfAdd<T>(s: seq<T>, f: T -> real, g: T -> real, h: T -> real)
    requires forall x | x in s :: h(x) == f(x) + g(x)
    ensures SumOf(s, h) == SumOf(s, f) + SumOf(s, g)
  {
    if s != [] {
      SumOfAdd(s[1..], f, g, h);
    }
  }

  lemma {:induction false} SumOfScale<T>(s: seq<T>, c: real, f: T -> real, g: T -> real)
    requires forall x | x in s :: g(x) == c * f(x)
    ensures SumOf(s, g) == c * SumOf(s, f)
  {
    if s != [] {
      SumOfScale(s[1..], c, f, g);
    }
  }

  lemma {:induction false} SumOfConst<T>(s: seq<T>, f: T -> real, c: real)
    requires forall x | x in s :: f(x) == c
    ensures SumOf(s, f) == c * |s| as real
  {
    if s != [] {
      SumOfConst(s[1..], f, c);
    }
  }

  lemma {:induction false} SumOfMono<T>(s: seq<T>, f: T -> real, g: T -> real)
    requires forall x | x in s :: f(x) <= g(x)
    ensures SumOf(s, f) <= SumOf(s, g)
  {
    if s != [] {
      SumOfMono(s[1..], f, g);
    }
  }

  /** A sum is linear in its terms. */
  lemma SumOfLinear<T(!new)>(s: seq<T>, c: real, f: T -> real, d: real, g: T -> real, e: T -> real, h: T -> real)
    requires forall x :: h(x) == c * f(x) + d * g(x) + e(x)
    ensures SumOf(s, h) == c * SumOf(s, f) + d * SumOf(s, g) + SumOf(s, e)
  {
    var cf, dg, both := (x: T) => c * f(x), (x: T) => d * g(x), (x: T) => c * f(x) + d * g(x);
    SumOfScale(s, c, f, cf);
    SumOfScale(s, d, g, dg);
    SumOfAdd(s, cf, dg, both);
    SumOfAdd(s, both, e, h);
  }

  lemma SumOfAffine<T(!new)>(s: seq<T>, c: real, f: T -> real, d: real, g: T -> real, e: real, h: T -> real)
    requires forall x :: h(x) == c * f(x) + d * g(x) + e
    ensures SumOf(s, h) == c * SumOf(s, f) + d * SumOf(s, g) + e * |s| as real
  {
    var k := (x: T) => e;
    SumOfLinear(s, c, f, d, g, k, h);
    SumOfConst(s, k, e);
  }

  /** A sum of non-negative terms is zero exactly when every term is. */
  lemma {:induction false} SumOfZero<T>(s: seq<T>, f: T -> real)
    requires forall x | x in s :: f(x) >= 0.0
    ensures SumOf(s, f) >= 0.0
    ensures SumOf(s, f) == 0.0 <==> forall x | x in s :: f(x) == 0.0
  {
    if s != [] {
      SumOfZero(s[1..], f);
      assert forall x | x in s :: x == s[0] || x in s[1..];
    }
  }

  lemma SumOfCons<T>(x: T, s: seq<T>, f: T -> real)
    ensures SumOf([x] + s, f) == f(x) + SumOf(s, f)
  {
    assert ([x] + s)[1..] == s;
  }

  lemma SplitAt<T>(s: seq<T>, k: nat)
    requires k < |s|
    ensures s == s[..k] + ([s[k]] + s[k + 1..])
  {
  }

  lemma SumOfAround<T>(s: seq<T>, k: nat, f: T -> real)
    requires k < |s|
    ensures SumOf(s, f) == SumOf(s[..k] + s[k + 1..], f) + f(s[k])
  {
    SplitAt(s, k);
    SumOfConcat(s[..k], [s[k]] + s[k + 1..], f);
    SumOfConcat(s[..k], s[k + 1..], f);
    SumOfCons(s[k], s[k + 1..], f);
  }

  /** A sum does not depend on the order of the elements. */
  lemma {:induction false} SumOfPerm<T>(s: seq<T>, t: seq<T>, f: T -> real)
    requires multiset(s) == multiset(t)
    ensures SumOf(s, f) == SumOf(t, f)
  {
    if s == [] {
      PermFacts(s, t);
    } else {
      PermFacts(s, t);
      assert s[0] in t;
      var k :| 0 <= k < |t| && t[k] == s[0];
      RemoveFirst(s);
      RemoveAt(t, k);
      SumOfPerm(s[1..], t[..k] + t[k + 1..], f);
      SumOfAround(t, k, f);
    }
  }

  /** How many elements satisfy f. */
  function CountIf<T>(s: seq<T>, f: T -> bool): nat {
    if s == [] then 0 else CountIf(s[..|s| - 1], f) + if f(s[|s| - 1]) then 1 else 0
  }

  lemma {:induction false} CountIfCong<T>(s: seq<T>, f: T -> bool, g: T -> bool)
    requires forall x | x in s :: f(x) == g(x)
    ensures CountIf(s, f) == CountIf(s, g)
  {
    if s != [] {
      CountIfCong(s[..|s| - 1], f, g);
    }
  }

  lemma {:induction false} CountIfNone<T>(s: seq<T>, f: T -> bool)
    ensures CountIf(s, f) == 0 <==> forall x | x in s :: !f(x)
  {
    if s != [] {
      var init, last := s[..|s| - 1], s[|s| - 1];
      CountIfNone(init, f);
      assert forall x | x in s :: x in init || x == last;
      assert last in s && forall x | x in init :: x in s;
    }
  }

  lemma CountIfSnoc<T>(s: seq<T>, x: T, f: T -> bool)
    ensures CountIf(s + [x], f) == CountIf(s, f) + if f(x) then 1 else 0
  {
    assert (s + [x])[..|s|] == s;
  }

  /** The sum of f(0), ..., f(n - 1). */
  function Sum(n: nat, f: int -> real): real {
    if n == 0 then 0.0 else Sum(n - 1, f) + f(n - 1)
  }

  lemma {:induction false} SumCong(n: nat, f: int -> real, g: int -> real)
    requires forall i | 0 <= i < n :: f(i) == g(i)
    ensures Sum(n, f) == Sum(n, g)
  {
    if n > 0 {
      SumCong(n - 1, f, g);
    }
  }

  lemma {:induction false} SumAdd(n: nat, f: int -> real, g: int -> real, h: int -> real)
    requires forall i | 0 <= i < n :: h(i) == f(i) + g(i)
    ensures Sum(n, h) == Sum(n, f) + Sum(n, g)
  {
    if n > 0 {
      SumAdd(n - 1, f, g, h);
    }
  }

  lemma {:induction false} SumScale(n: nat, c: real, f: int -> real, g: int -> real)
    requires forall i | 0 <= i < n :: g(i) == c * f(i)
    ensures Sum(n, g) == c * Sum(n, f)
  {
    if n > 0 {
      SumScale(n - 1, c, f, g);
    }
  }

  /** A sum with at most one non-zero term, at x. */
  lemma {:induction false} SumDelta(n: nat, x: int, f: int -> real)
    requires forall i | 0 <= i < n && i != x :: f(i) == 0.0
    ensures Sum(n, f) == if 0 <= x < n then f(x) else 0.0
  {
    if n > 0 {
      SumDelta(n - 1, x, f);
    }
  }

  // ---------- counting by category ----------

  function CountKey<T>(s: seq<T>, key: T -> int, i: int): nat {
    if s == [] then 0 else (if key(s[0]) == i then 1 else 0) + CountKey(s[1..], key, i)
  }

  function WeightedCount<T>(s: seq<T>, key: T -> int, g: int -> real): int -> real {
    i => g(i) * CountKey(s, key, i) as real
  }

  lemma Distribute(x: real, a: nat, b: nat)
    ensures x * (a + b) as real == x * a as real + x * b as real
  {
  }

  lemma TimesZero(x: real)
    ensures x * 0 as real == 0.0
  {
  }

  lemma CountOneMore<T>(s: seq<T>, key: T -> int, g: int -> real, i: int)
    requires s != []
    ensures WeightedCount(s, key, g)(i)
         == (if i == key(s[0]) then g(i) else 0.0) + WeightedCount(s[1..], key, g)(i)
  {
    Distribute(g(i), if key(s[0]) == i then 1 else 0, CountKey(s[1..], key, i));
  }

  /** Counting by category and weighting the counts is summing the weights of the elements. */
  lemma {:induction false} SumByKey<T>(s: seq<T>, k: nat, key: T -> int, g: int -> real, each: T -> real)
    requires forall x | x in s :: 0 <= key(x) < k && each(x) == g(key(x))
    ensures Sum(k, WeightedCount(s, key, g)) == SumOf(s, each)
  {
    if s == [] {
      forall i ensures WeightedCount(s, key, g)(i) == 0.0 {
        TimesZero(g(i));
      }
      SumDelta(k, -1, WeightedCount(s, key, g));
    } else {
      SumByKey(s[1..], k, key, g, each);
      var first := (i: int) => if i == key(s[0]) then g(i) else 0.0;
      SumDelta(k, key(s[0]), first);
      forall i ensures WeightedCount(s, key, g)(i) == first(i) + WeightedCount(s[1..], key, g)(i) {
        CountOneMore(s, key, g, i);
      }
      SumAdd(k, first, WeightedCount(s[1..], key, g), WeightedCount(s, key, g));
    }
  }
}
