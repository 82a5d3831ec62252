/**
 The Mann-Whitney rank test and Cliff's delta (article1/scripts/analyze_all.py). The script ranks the
 pooled sample with a tie-group loop; the reference definition counts pairs of observations.
 */
module MannWhitney {
  import opened Reals
  import opened Sums
  import opened Sorting
  import opened Wrappers

  /** A pooled observation: its value and the sample it came from (0 or 1). */
  type Obs = (real, int)

  // ---------- reference definitions: pair counts ----------

  function CountBelow(s: seq<real>, v: real): nat {
    if s == [] then 0 else (if s[0] < v then 1 else 0) + CountBelow(s[1..], v)
  }

  function CountEqual(s: seq<real>, v: real): nat {
    if s == [] then 0 else (if s[0] == v then 1 else 0) + CountEqual(s[1..], v)
  }

  /** The number of pairs (x, y), x in a and y in b, with x > y. */
  function PairsAbove(a: seq<real>, b: seq<real>): nat {
    if a == [] then 0 else CountBelow(b, a[0]) + PairsAbove(a[1..], b)
  }

  /** The number of pairs (x, y), x in a and y in b, with x == y. */
  function PairsTied(a: seq<real>, b: seq<real>): nat {
    if a == [] then 0 else CountEqual(b, a[0]) + PairsTied(a[1..], b)
  }

  /** The U statistic of a against b: a win counts one, a tie one half. */
  function U(a: seq<real>, b: seq<real>): real {
    PairsAbove(a, b) as real + PairsTied(a, b) as real / 2.0
  }

  /** The variance of U under the null hypothesis, without tie correction. */
  function Variance(n1: nat, n2: nat): (v: real)
    ensures n1 > 0 && n2 > 0 ==> v > 0.0
  {
    var pairs := n1 as real * n2 as real;
    assert n1 > 0 && n2 > 0 ==> pairs > 0.0;
    pairs * (n1 + n2 + 1) as real / 12.0
  }

  /** A square root of a positive number is positive. */
  lemma RootPositive(sqrt: real -> real, v: real)
    requires IsSqrt(sqrt) && v > 0.0
    ensures sqrt(v) > 0.0
  {
    assert sqrt(v) * sqrt(v) == v;
  }

  /** The standardised distance of u from its mean under the null hypothesis. */
  function ZScore(u: real, n1: nat, n2: nat, sqrt: real -> real): real
    requires IsSqrt(sqrt) && n1 > 0 && n2 > 0
  {
    RootPositive(sqrt, Variance(n1, n2));
    Abs((u - n1 as real * n2 as real / 2.0) / sqrt(Variance(n1, n2)))
  }

  /** The two-sided p-value of the normal approximation, from the pair-counting U. */
  function PValue(a: seq<real>, b: seq<real>, sqrt: real -> real, erfc: real -> real): Option<real>
    requires IsSqrt(sqrt)
  {
    if a == [] || b == [] then None
    else
      RootPositive(sqrt, 2.0);
      Some(erfc(ZScore(U(a, b), |a|, |b|, sqrt) / sqrt(2.0)))
  }

  function Abs(x: real): real {
    if x < 0.0 then -x else x
  }

  // ---------- half-win sums ----------

  /** 1 when w is below v, 1/2 when they tie, 0 when w is above. */
  function Half(w: real, v: real): real {
    if w < v then 1.0 else if w == v then 0.5 else 0.0
  }

  function Against(v: real): real -> real {
    w => Half(w, v)
  }

  /** The half-wins of v over the sample s. */
  function Wins(s: seq<real>, v: real): real {
    SumOf(s, Against(v))
  }

  function WinsOver(s: seq<real>): real -> real {
    v => Wins(s, v)
  }

  lemma {:induction false} WinsCounts(s: seq<real>, v: real)
    ensures Wins(s, v) == CountBelow(s, v) as real + CountEqual(s, v) as real / 2.0
  {
    if s != [] {
      WinsCounts(s[1..], v);
    }
  }

  lemma {:induction false} UIsHalfWins(a: seq<real>, b: seq<real>)
    ensures U(a, b) == SumOf(a, WinsOver(b))
  {
    if a != [] {
      UIsHalfWins(a[1..], b);
      WinsCounts(b, a[0]);
    }
  }

  function CountOver(s: seq<real>, v: real): nat {
    if s == [] then 0 else (if s[0] > v then 1 else 0) + CountOver(s[1..], v)
  }

  lemma {:induction false} CountsPartition(s: seq<real>, v: real)
    ensures CountBelow(s, v) + CountEqual(s, v) + CountOver(s, v) == |s|
  {
    if s != [] {
      CountsPartition(s[1..], v);
    }
  }

  /** The pairs of b against a, split into those against the first of a and those against the rest. */
  lemma {:induction false} PairsCons(b: seq<real>, a: seq<real>)
    requires a != []
    ensures PairsAbove(b, a) == CountOver(b, a[0]) + PairsAbove(b, a[1..])
    ensures PairsTied(b, a) == CountEqual(b, a[0]) + PairsTied(b, a[1..])
  {
    if b != [] {
      PairsCons(b[1..], a);
    }
  }

  lemma {:induction false} PairsNil(b: seq<real>)
    ensures PairsAbove(b, []) == 0 && PairsTied(b, []) == 0
  {
    if b != [] {
      PairsNil(b[1..]);
    }
  }

  /** Every pair is above, below or tied. */
  lemma {:induction false} PairsTrichotomy(a: seq<real>, b: seq<real>)
    ensures PairsAbove(a, b) + PairsAbove(b, a) + PairsTied(a, b) == |a| * |b|
    ensures PairsTied(a, b) == PairsTied(b, a)
  {
    if a == [] {
      PairsNil(b);
    } else {
      PairsCons(b, a);
      CountsPartition(b, a[0]);
      PairsTrichotomy(a[1..], b);
      MulPred(|a|, |b|);
    }
  }

  /** Every pair is a win for exactly one side, or half a win for each. */
  lemma UComplement(a: seq<real>, b: seq<real>)
    ensures U(a, b) + U(b, a) == |a| as real * |b| as real
  {
    PairsTrichotomy(a, b);
    MulAsReal(|a|, |b|);
  }

  // ---------- ranks ----------

  function Keys(values: seq<Obs>): seq<real> {
    seq(|values|, i requires 0 <= i < |values| => values[i].0)
  }

  /** The tie-averaged rank of v in the pool: one half plus its half-wins over the whole pool. */
  function MidRank(pool: seq<real>, v: real): real {
    0.5 + Wins(pool, v)
  }

  function RankIn(pool: seq<real>): real -> real {
    v => MidRank(pool, v)
  }

  /** v beats all of lo, ties with all of mid and loses to all of hi. */
  lemma BlockWins(lo: seq<real>, mid: seq<real>, hi: seq<real>, v: real)
    requires forall x | x in lo :: x < v
    requires forall x | x in mid :: x == v
    requires forall x | x in hi :: v < x
    ensures Wins(lo + (mid + hi), v) == 1.0 * |lo| as real + (0.5 * |mid| as real + 0.0 * |hi| as real)
  {
    var f := Against(v);
    SumOfConcat(lo, mid + hi, f);
    SumOfConcat(mid, hi, f);
    SumOfConst(lo, f, 1.0);
    SumOfConst(mid, f, 0.5);
    SumOfConst(hi, f, 0.0);
  }

  /** In a sorted pool, the block [i, j) of equal keys has the average of the ranks i + 1, ..., j. */
  lemma BlockRank(pool: seq<real>, i: nat, j: nat)
    requires i < j <= |pool|
    requires forall k | 0 <= k < i :: pool[k] < pool[i]
    requires forall k | i <= k < j :: pool[k] == pool[i]
    requires forall k | j <= k < |pool| :: pool[i] < pool[k]
    ensures MidRank(pool, pool[i]) == (i + 1 + j) as real / 2.0
  {
    assert pool == pool[..i] + (pool[i..j] + pool[j..]);
    BlockWins(pool[..i], pool[i..j], pool[j..], pool[i]);
    Average(i, j, (|pool| - j) as real);
  }

  lemma Average(i: nat, j: nat, rest: real)
    requires i <= j
    ensures 0.5 + (1.0 * i as real + (0.5 * (j - i) as real + 0.0 * rest)) == (i + 1 + j) as real / 2.0
  {
  }

  /** The ranks of a whole pool sum to N(N + 1)/2, with any ties. */
  lemma RanksSum(pool: seq<real>)
    ensures SumOf(pool, RankIn(pool)) == |pool| as real * (|pool| + 1) as real / 2.0
  {
    UComplement(pool, pool);
    UIsHalfWins(pool, pool);
    var half := (v: real) => 0.5;
    SumOfAdd(pool, half, WinsOver(pool), RankIn(pool));
    SumOfConst(pool, half, 0.5);
  }

  /** The rank sum of the sample a inside the pool a + b, less its least possible value, is U. */
  lemma RankSumIsU(a: seq<real>, b: seq<real>)
    ensures SumOf(a, RankIn(a + b)) - |a| as real * (|a| + 1) as real / 2.0 == U(a, b)
  {
    RanksSum(a);
    UIsHalfWins(a, b);
    forall v ensures RankIn(a + b)(v) == RankIn(a)(v) + WinsOver(b)(v) {
      SumOfConcat(a, b, Against(v));
    }
    SumOfAdd(a, RankIn(a), WinsOver(b), RankIn(a + b));
  }

  // ---------- the pooled, tagged, sorted sample ----------

  function Tag(s: seq<real>, group: int): seq<Obs> {
    seq(|s|, i requires 0 <= i < |s| => (s[i], group))
  }

  predicate KeyLe(x: Obs, y: Obs) {
    x.0 <= y.0
  }

  function Pooled(a: seq<real>, b: seq<real>): seq<Obs> {
    Sort(Tag(a, 0) + Tag(b, 1), KeyLe)
  }

  function RankOfFirst(pool: seq<real>): Obs -> real {
    (w: Obs) => if w.1 == 0 then MidRank(pool, w.0) else 0.0
  }

  lemma {:induction false} SumOfTagged(s: seq<real>, group: int, f: Obs -> real, g: real -> real)
    requires forall v | v in s :: f((v, group)) == g(v)
    ensures SumOf(Tag(s, group), f) == SumOf(s, g)
  {
    if s == [] {
      assert Tag(s, group) == [];
    } else {
      var v := s[0];
      assert v in s;
      assert g(v) == f((v, group));
      assert Tag(s, group)[0] == (s[0], group) && Tag(s, group)[1..] == Tag(s[1..], group);
      SumOfTagged(s[1..], group, f, g);
    }
  }

  lemma {:induction false} SumOfKeys(values: seq<Obs>, f: real -> real, g: Obs -> real)
    requires forall w | w in values :: g(w) == f(w.0)
    ensures SumOf(Keys(values), f) == SumOf(values, g)
  {
    if values != [] {
      assert Keys(values)[1..] == Keys(values[1..]);
      SumOfKeys(values[1..], f, g);
    }
  }

  /** Sorting the pool changes no half-win count. */
  lemma PooledWins(a: seq<real>, b: seq<real>, v: real)
    ensures Wins(Keys(Pooled(a, b)), v) == Wins(a + b, v)
  {
    var g := (w: Obs) => Half(w.0, v);
    SumOfKeys(Pooled(a, b), Against(v), g);
    SumOfPerm(Pooled(a, b), Tag(a, 0) + Tag(b, 1), g);
    SumOfConcat(Tag(a, 0), Tag(b, 1), g);
    SumOfTagged(a, 0, g, Against(v));
    SumOfTagged(b, 1, g, Against(v));
    SumOfConcat(a, b, Against(v));
  }

  /** The rank sum of the observations tagged 0 in the sorted pool. */
  lemma FirstRankSum(a: seq<real>, b: seq<real>)
    ensures SumOf(Pooled(a, b), RankOfFirst(Keys(Pooled(a, b))))
         == U(a, b) + |a| as real * (|a| + 1) as real / 2.0
  {
    var pool := Keys(Pooled(a, b));
    var f := RankOfFirst(pool);
    SumOfPerm(Pooled(a, b), Tag(a, 0) + Tag(b, 1), f);
    SumOfConcat(Tag(a, 0), Tag(b, 1), f);
    forall v ensures f((v, 0)) == RankIn(a + b)(v) {
      PooledWins(a, b, v);
    }
    SumOfTagged(a, 0, f, RankIn(a + b));
    var zero := (v: real) => 0.0;
    SumOfTagged(b, 1, f, zero);
    SumOfConst(b, zero, 0.0);
    RankSumIsU(a, b);
  }

  // ---------- the script's loops ----------

  /** The tie-group loop: ranks[k] becomes the average of the positions its tie group occupies. */
  method AssignRanks(values: seq<Obs>) returns (ranks: seq<real>)
    requires SortedBy(values, KeyLe)
    ensures |ranks| == |values|
    ensures forall k | 0 <= k < |values| :: ranks[k] == MidRank(Keys(values), values[k].0)
  {
    var n := |values|;
    var slots := new real[n](_ => 0.0);
    var i := 0;
    while i < n
      invariant 0 <= i <= n
      invariant forall k, l | 0 <= k < i <= l < n :: values[k].0 < values[l].0
      invariant forall k | 0 <= k < i :: slots[k] == MidRank(Keys(values), values[k].0)
    {
      var j := i + 1;
      while j < n && values[j].0 == values[i].0
        invariant i < j <= n
        invariant forall k | i <= k < j :: values[k].0 == values[i].0
      {
        j := j + 1;
      }
      assert forall l | j <= l < n :: KeyLe(values[j], values[l]) || j == l;
      assert j < n ==> KeyLe(values[i], values[j]);
      BlockRank(Keys(values), i, j);
      var rank := (i + 1 + j) as real / 2.0;
      for k := i to j
        invariant forall l | 0 <= l < i :: slots[l] == MidRank(Keys(values), values[l].0)
        invariant forall l | i <= l < k :: slots[l] == rank
      {
        slots[k] := rank;
      }
      i := j;
    }
    ranks := slots[..];
  }

  /** The U statistic as the script computes it, from the rank sum of the first sample. */
  method RankU(a: seq<real>, b: seq<real>) returns (u1: real)
    ensures u1 == U(a, b)
  {
    SortSorted(Tag(a, 0) + Tag(b, 1), KeyLe);
    var values := Pooled(a, b);
    var ranks := AssignRanks(values);
    ghost var f := RankOfFirst(Keys(values));
    var r1 := 0.0;
    for k := 0 to |values|
      invariant r1 == SumOf(values[..k], f)
    {
      SumOfSnoc(values[..k], values[k], f);
      assert values[..k + 1] == values[..k] + [values[k]];
      if values[k].1 == 0 {
        r1 := r1 + ranks[k];
      }
    }
    assert values[..|values|] == values;
    FirstRankSum(a, b);
    u1 := r1 - |a| as real * (|a| + 1) as real / 2.0;
  }

  /** mann_whitney_p. The variance is never zero on non-empty samples, so its guard never fires. */
  method MannWhitneyP(a: seq<real>, b: seq<real>, sqrt: real -> real, erfc: real -> real)
    returns (p: Option<real>)
    requires IsSqrt(sqrt)
    ensures p == PValue(a, b, sqrt, erfc)
    ensures p == None <==> a == [] || b == []
  {
    if a == [] || b == [] {
      return None;
    }
    var u1 := RankU(a, b);
    var mean := |a| as real * |b| as real / 2.0;
    var variance := |a| as real * |b| as real * (|a| + |b| + 1) as real / 12.0;
    assert variance == Variance(|a|, |b|);
    if variance <= 0.0 {
      return None;
    }
    RootPositive(sqrt, variance);
    RootPositive(sqrt, 2.0);
    var z := Abs((u1 - mean) / sqrt(variance));
    p := Some(erfc(z / sqrt(2.0)));
  }

  // ---------- what the statistics promise ----------

  /** Swapping the samples leaves the p-value unchanged. */
  lemma PValueSymmetric(a: seq<real>, b: seq<real>, sqrt: real -> real, erfc: real -> real)
    requires IsSqrt(sqrt)
    ensures PValue(a, b, sqrt, erfc) == PValue(b, a, sqrt, erfc)
  {
    if a != [] && b != [] {
      UComplement(a, b);
      ZScoreSymmetric(U(a, b), U(b, a), |a|, |b|, sqrt);
    }
  }

  lemma ZScoreSymmetric(u: real, u': real, n1: nat, n2: nat, sqrt: real -> real)
    requires IsSqrt(sqrt) && n1 > 0 && n2 > 0
    requires u + u' == n1 as real * n2 as real
    ensures ZScore(u, n1, n2, sqrt) == ZScore(u', n2, n1, sqrt)
  {
    assert n1 as real * n2 as real == n2 as real * n1 as real;
    assert Variance(n1, n2) == Variance(n2, n1);
    var r := sqrt(Variance(n1, n2));
    RootPositive(sqrt, Variance(n1, n2));
    var d := u - n1 as real * n2 as real / 2.0;
    assert u' - n2 as real * n1 as real / 2.0 == -d;
    assert (-d) / r == -(d / r);
  }

  /** The share of n pairs won less the share lost. */
  function Delta(won: nat, lost: nat, n: nat): real {
    if n == 0 then 0.0 else (won - lost) as real / n as real
  }

  /** cliffs_delta over all pairs of the samples. */
  function CliffsDelta(a: seq<real>, b: seq<real>): real {
    Delta(PairsAbove(a, b), PairsAbove(b, a), |a| * |b|)
  }

  /** Cliff's delta is the U statistic rescaled to [-1, 1], and changes sign when the samples swap. */
  lemma CliffsDeltaFromU(a: seq<real>, b: seq<real>)
    requires a != [] && b != []
    ensures CliffsDelta(a, b) == 2.0 * U(a, b) / (|a| as real * |b| as real) - 1.0
    ensures -1.0 <= CliffsDelta(a, b) <= 1.0
    ensures CliffsDelta(b, a) == -CliffsDelta(a, b)
  {
    MulAsReal(|a|, |b|);
    Commute(|a|, |b|);
    DeltaOver(a, b, |a| * |b|, |a| as real * |b| as real);
  }

  lemma DeltaOver(a: seq<real>, b: seq<real>, n: nat, m: real)
    requires n == |a| * |b| && n > 0 && m == n as real
    ensures CliffsDelta(a, b) == 2.0 * U(a, b) / m - 1.0
    ensures -1.0 <= CliffsDelta(a, b) <= 1.0
    ensures CliffsDelta(b, a) == -CliffsDelta(a, b)
  {
    PairsTrichotomy(a, b);
    DeltaIs(PairsAbove(a, b), PairsAbove(b, a), PairsTied(a, b), n, U(a, b), m);
    SwappedSamples(a, b, n);
  }

  lemma SwappedSamples(a: seq<real>, b: seq<real>, n: nat)
    requires n == |a| * |b|
    ensures CliffsDelta(b, a) == Delta(PairsAbove(b, a), PairsAbove(a, b), n)
  {
    Commute(|a|, |b|);
  }

  lemma DeltaIs(above: nat, below: nat, tied: nat, n: nat, u: real, m: real)
    requires above + below + tied == n && n > 0 && m == n as real && u == above as real + tied as real / 2.0
    ensures Delta(above, below, n) == 2.0 * u / m - 1.0
    ensures -1.0 <= Delta(above, below, n) <= 1.0
    ensures Delta(below, above, n) == -Delta(above, below, n)
  {
    ShareOfPairs(above, below, tied, n);
  }

  lemma ShareOfPairs(above: nat, below: nat, tied: nat, n: nat)
    requires above + below + tied == n && n > 0
    ensures (above - below) as real / n as real
         == 2.0 * (above as real + tied as real / 2.0) / n as real - 1.0
    ensures (below - above) as real / n as real == -((above - below) as real / n as real)
    ensures -1.0 <= (above - below) as real / n as real <= 1.0
  {
    var d, q := (above - below) as real, n as real;
    var share := d / q;
    QuotientTimes(d, q);
    QuotientIs(2.0 * (above as real + tied as real / 2.0), q, share + 1.0);
    QuotientIs((below - above) as real, q, -share);
    DivBound(d, q, 1.0);
    DivBound(-d, q, 1.0);
  }
}
