/** The aggregation and rates of the main matrix (writeMatrixCSVs in experimentation/internal/runner/runner_rqs.go). */
module MatrixReport {
  import opened Engine
  import opened Grouping
  import opened Percentiles
  import opened Reals
  import opened Sums

  datatype Agg = Agg(cost: real, served: nat, block: nat, inTok: nat, outTok: nat, qNorm: seq<real>, accept: nat,
                     win: nat, tie: nat, los: nat, lat: seq<real>, routeNS: seq<real>)

  const EMPTY_AGG := Agg(0.0, 0, 0, 0, 0, [], 0, 0, 0, 0, [], [])

  /** The pairwise verdict counts only for a live model other than the premium. */
  predicate Compared(r: CallRecord) {
    r.modelID != "" && r.reroute && r.isReal
  }

  /** One record more. */
  function Add(a: Agg, r: CallRecord): Agg {
    var routeNS := a.routeNS + [r.routingNS as real];
    if r.blocked then a.(block := a.block + 1, routeNS := routeNS)
    else
      Agg(a.cost + r.costEUR, a.served + 1, a.block, a.inTok + r.usage.inputTokens, a.outTok + r.usage.outputTokens,
          a.qNorm + [(r.quality - 1.0) / 4.0], a.accept + if r.quality >= 3.0 then 1 else 0,
          a.win + if Compared(r) && r.win == "win" then 1 else 0,
          a.tie + if Compared(r) && r.win == "tie" then 1 else 0,
          a.los + if Compared(r) && r.win == "lose" then 1 else 0, a.lat + [r.latencyMS as real], routeNS)
  }

  /** The aggregate of the records of a strategy. */
  function AggOf(rs: seq<CallRecord>, strategy: string): Agg {
    if rs == [] then EMPTY_AGG
    else
      var a, r := AggOf(rs[..|rs| - 1], strategy), rs[|rs| - 1];
      if r.strategy == strategy then Add(a, r) else a
  }

  function ByStrategy(): CallRecord -> string {
    (r: CallRecord) => r.strategy
  }

  /** The aggregation loop. */
  method Aggregate(matrix: seq<CallRecord>) returns (groups: map<string, Agg>, order: seq<string>)
    ensures order == FirstSeen(matrix, ByStrategy())
    ensures forall s :: s in groups <==> s in order
    ensures forall s | s in groups :: groups[s] == AggOf(matrix, s)
  {
    groups, order := map[], [];
    for i := 0 to |matrix|
      invariant order == FirstSeen(matrix[..i], ByStrategy())
      invariant forall s :: s in groups <==> s in order
      invariant forall s | s in groups :: groups[s] == AggOf(matrix[..i], s)
      invariant forall s | s !in groups :: AggOf(matrix[..i], s) == EMPTY_AGG
    {
      var r := matrix[i];
      assert matrix[..i + 1][..i] == matrix[..i];
      if r.strategy !in groups {
        groups := groups[r.strategy := EMPTY_AGG];
        order := order + [r.strategy];
      }
      groups := groups[r.strategy := Add(groups[r.strategy], r)];
    }
    assert matrix[..|matrix|] == matrix;
  }

  // ---------- what the aggregates are ----------

  /** The served records of a strategy: the usage samples it is priced by. */
  function Samples(rs: seq<CallRecord>, s: string): seq<CallRecord> {
    if rs == [] then []
    else
      var r := rs[|rs| - 1];
      Samples(rs[..|rs| - 1], s) + if r.strategy == s && !r.blocked then [r] else []
  }

  /** A served record of a live model other than the premium, with this verdict. */
  function WithVerdict(v: string): CallRecord -> bool {
    (r: CallRecord) => r.modelID != "" && r.isReal && r.reroute && r.win == v
  }

  function Acceptable(): CallRecord -> bool {
    (r: CallRecord) => r.quality >= 3.0
  }

  function Cost(): CallRecord -> real {
    (r: CallRecord) => r.costEUR
  }

  function InTokens(): CallRecord -> real {
    (r: CallRecord) => r.usage.inputTokens as real
  }

  function OutTokens(): CallRecord -> real {
    (r: CallRecord) => r.usage.outputTokens as real
  }

  /** The aggregate of served records, figure by figure. */
  ghost predicate CountsAre(a: Agg, samples: seq<CallRecord>) {
    && a.served == |samples| && a.accept == CountIf(samples, Acceptable())
    && a.win == CountIf(samples, WithVerdict("win")) && a.tie == CountIf(samples, WithVerdict("tie"))
    && a.los == CountIf(samples, WithVerdict("lose"))
  }

  ghost predicate TotalsAre(a: Agg, samples: seq<CallRecord>) {
    && a.cost == SumOf(samples, Cost()) && a.inTok as real == SumOf(samples, InTokens())
    && a.outTok as real == SumOf(samples, OutTokens())
  }

  ghost predicate ListsAre(a: Agg, samples: seq<CallRecord>) {
    && |a.qNorm| == |a.lat| == |samples|
    && forall i | 0 <= i < |samples| ::
         a.lat[i] == samples[i].latencyMS as real && 4.0 * a.qNorm[i] + 1.0 == samples[i].quality
  }

  lemma CountsAdd(a: Agg, samples: seq<CallRecord>, r: CallRecord)
    requires CountsAre(a, samples) && !r.blocked
    ensures CountsAre(Add(a, r), samples + [r])
  {
    CountIfSnoc(samples, r, Acceptable());
    CountIfSnoc(samples, r, WithVerdict("win"));
    CountIfSnoc(samples, r, WithVerdict("tie"));
    CountIfSnoc(samples, r, WithVerdict("lose"));
  }

  lemma TotalsAdd(a: Agg, samples: seq<CallRecord>, r: CallRecord)
    requires TotalsAre(a, samples) && !r.blocked
    ensures TotalsAre(Add(a, r), samples + [r])
  {
    SumOfSnoc(samples, r, Cost());
    SumOfSnoc(samples, r, InTokens());
    SumOfSnoc(samples, r, OutTokens());
  }

  /** Every figure of the aggregate is that of the strategy's served records. */
  lemma {:induction false} AggregateCounts(rs: seq<CallRecord>, s: string)
    ensures CountsAre(AggOf(rs, s), Samples(rs, s)) && TotalsAre(AggOf(rs, s), Samples(rs, s))
    ensures ListsAre(AggOf(rs, s), Samples(rs, s))
  {
    if rs != [] {
      var init, r := rs[..|rs| - 1], rs[|rs| - 1];
      AggregateCounts(init, s);
      if r.strategy == s && !r.blocked {
        CountsAdd(AggOf(init, s), Samples(init, s), r);
        TotalsAdd(AggOf(init, s), Samples(init, s), r);
      } else {
        assert Samples(init, s) + [] == Samples(init, s);
      }
    }
  }

  function UnblockedCost(): CallRecord -> real {
    (r: CallRecord) => if r.blocked then 0.0 else r.costEUR
  }

  predicate Bounded(a: Agg) {
    a.accept <= a.served && a.win + a.tie + a.los <= a.served && |a.qNorm| == |a.lat| == a.served
    && |a.routeNS| == a.served + a.block
  }

  /** Served and blocked are all of the strategy's records; the cost is that of the served ones. */
  lemma {:induction false} AggregateIs(rs: seq<CallRecord>, strategy: string)
    ensures var a := AggOf(rs, strategy);
      && a.served + a.block == |Of(rs, ByStrategy(), strategy)|
      && a.cost == SumOf(Of(rs, ByStrategy(), strategy), UnblockedCost())
      && Bounded(a)
  {
    if rs != [] {
      AggregateIs(rs[..|rs| - 1], strategy);
      OfLast(rs, ByStrategy(), strategy);
      SumOfSnoc(Of(rs[..|rs| - 1], ByStrategy(), strategy), rs[|rs| - 1], UnblockedCost());
    }
  }

  /** A routing time for every record of the strategy, served or not. */
  lemma {:induction false} RoutingTimes(rs: seq<CallRecord>, s: string)
    ensures var times, of := AggOf(rs, s).routeNS, Of(rs, ByStrategy(), s);
      |times| == |of| && forall i | 0 <= i < |of| :: times[i] == of[i].routingNS as real
  {
    if rs != [] { RoutingTimes(rs[..|rs| - 1], s); }
  }

  function CostsOf(rs: seq<CallRecord>): string -> real {
    s => AggOf(rs, s).cost
  }

  function CountsOf(rs: seq<CallRecord>): string -> real {
    s => (AggOf(rs, s).served + AggOf(rs, s).block) as real
  }

  lemma CostsAgree(rs: seq<CallRecord>)
    ensures forall s :: CostsOf(rs)(s) == PerKey(rs, ByStrategy(), UnblockedCost())(s)
  {
    forall s: string ensures CostsOf(rs)(s) == PerKey(rs, ByStrategy(), UnblockedCost())(s) {
      AggregateIs(rs, s);
    }
  }

  function One(): CallRecord -> real {
    (r: CallRecord) => 1.0
  }

  lemma CountIs(rs: seq<CallRecord>, s: string)
    ensures (AggOf(rs, s).served + AggOf(rs, s).block) as real == SumOf(Of(rs, ByStrategy(), s), One())
  {
    SumOfConst(Of(rs, ByStrategy(), s), One(), 1.0);
    assert AggOf(rs, s).served + AggOf(rs, s).block == |Of(rs, ByStrategy(), s)| by {
      AggregateIs(rs, s);
    }
  }

  lemma CountsAgree(rs: seq<CallRecord>)
    ensures forall s :: CountsOf(rs)(s) == PerKey(rs, ByStrategy(), One())(s)
  {
    forall s: string ensures CountsOf(rs)(s) == PerKey(rs, ByStrategy(), One())(s) {
      CountIs(rs, s);
    }
  }

  /** The cost rows add up to the cost of all served records, and their counts to the number of records. */
  lemma ReportConserves(rs: seq<CallRecord>)
    ensures SumOf(FirstSeen(rs, ByStrategy()), CostsOf(rs)) == SumOf(rs, UnblockedCost())
    ensures SumOf(FirstSeen(rs, ByStrategy()), CountsOf(rs)) == |rs| as real
  {
    CostsAgree(rs);
    KeysAddUp(rs, ByStrategy(), UnblockedCost());
    SumOfCong(FirstSeen(rs, ByStrategy()), CostsOf(rs), PerKey(rs, ByStrategy(), UnblockedCost()));
    CountsAgree(rs);
    KeysAddUp(rs, ByStrategy(), One());
    SumOfCong(FirstSeen(rs, ByStrategy()), CountsOf(rs), PerKey(rs, ByStrategy(), One()));
    SumOfConst(rs, One(), 1.0);
  }

  // ---------- the rows ----------

  const BASELINE := "B1-premium-static"

  datatype CostRow = CostRow(strategy: string, cost: real, served: nat, block: nat, costPerReq: real,
                             costPerTok: real, savings: real)

  datatype QualityRow = QualityRow(strategy: string, meanQuality: real, acceptRate: real, winRate: real, comp: nat)

  datatype LatencyRow = LatencyRow(strategy: string, p50: real, p95: real, p99: real, mean: real, routingUS: real)

  function Ratio(x: real, y: real): real
    requires y > 0.0
  {
    x / y
  }

  function CostRowOf(s: string, a: Agg, premiumTotal: real): CostRow {
    CostRow(s, a.cost, a.served, a.block,
            if a.served > 0 then Ratio(a.cost, a.served as real) else 0.0,
            if a.inTok + a.outTok > 0 then Ratio(a.cost, (a.inTok + a.outTok) as real) else 0.0,
            if premiumTotal > 0.0 then Ratio(premiumTotal - a.cost, premiumTotal) * 100.0 else 0.0)
  }

  function Mean(v: seq<real>): real {
    if v == [] then 0.0 else Ratio(SumOf(v, x => x), |v| as real)
  }

  function QualityRowOf(s: string, a: Agg): QualityRow {
    var comp := a.win + a.tie + a.los;
    QualityRow(s, Mean(a.qNorm),
               if a.served > 0 then Ratio(a.accept as real, a.served as real) * 100.0 else 0.0,
               if comp > 0 then Ratio(a.win as real + 0.5 * a.tie as real, comp as real) * 100.0 else 0.0, comp)
  }

  function LatencyRowOf(s: string, a: Agg): LatencyRow {
    LatencyRow(s, Percentile(a.lat, 50.0), Percentile(a.lat, 95.0), Percentile(a.lat, 99.0), Mean(a.lat),
               Mean(a.routeNS) / 1000.0)
  }

  datatype Report = Report(cost: seq<CostRow>, quality: seq<QualityRow>, latency: seq<LatencyRow>)

  /** The loop over the strategies that fills a table. */
  method Table<Row>(order: seq<string>, groups: map<string, Agg>, row: (string, Agg) -> Row) returns (rows: seq<Row>)
    requires forall s | s in order :: s in groups
    ensures |rows| == |order|
    ensures forall k | 0 <= k < |order| :: rows[k] == row(order[k], groups[order[k]])
  {
    rows := [];
    for k := 0 to |order|
      invariant |rows| == k
      invariant forall j | 0 <= j < k :: rows[j] == row(order[j], groups[order[j]])
    {
      rows := rows + [row(order[k], groups[order[k]])];
    }
  }

  /** The three tables, a row a strategy in the order of first appearance. */
  method WriteMatrix(matrix: seq<CallRecord>) returns (r: Report)
    ensures var order, premiumTotal := FirstSeen(matrix, ByStrategy()), AggOf(matrix, BASELINE).cost;
      && |r.cost| == |r.quality| == |r.latency| == |order|
      && forall k | 0 <= k < |order| ::
           && r.cost[k] == CostRowOf(order[k], AggOf(matrix, order[k]), premiumTotal)
           && r.quality[k] == QualityRowOf(order[k], AggOf(matrix, order[k]))
           && r.latency[k] == LatencyRowOf(order[k], AggOf(matrix, order[k]))
  {
    var groups, order := Aggregate(matrix);
    var premiumTotal := 0.0;
    if BASELINE in groups {
      premiumTotal := groups[BASELINE].cost;
    } else {
      NoAggregate(matrix, BASELINE);
    }
    var rows1 := Table(order, groups, (s, a) => CostRowOf(s, a, premiumTotal));
    var rows2 := Table(order, groups, QualityRowOf);
    var rows3 := Table(order, groups, LatencyRowOf);
    r := Report(rows1, rows2, rows3);
  }

  lemma {:induction false} NoAggregate(rs: seq<CallRecord>, s: string)
    requires s !in FirstSeen(rs, ByStrategy())
    ensures AggOf(rs, s) == EMPTY_AGG
  {
    if rs != [] {
      NoAggregate(rs[..|rs| - 1], s);
    }
  }

  // ---------- the rates ----------

  /** A percentage of a part between nothing and the whole. */
  lemma PercentBounds(x: real, y: real)
    requires 0.0 <= x <= y && y > 0.0
    ensures 0.0 <= Ratio(x, y) <= 1.0
  {
    DivMono(0.0, x, y);
    DivMono(x, y, y);
  }

  lemma RateBounds(s: string, a: Agg)
    requires Bounded(a)
    ensures 0.0 <= QualityRowOf(s, a).acceptRate <= 100.0 && 0.0 <= QualityRowOf(s, a).winRate <= 100.0
  {
    if a.served > 0 {
      PercentBounds(a.accept as real, a.served as real);
    }
    if a.win + a.tie + a.los > 0 {
      PercentBounds(a.win as real + 0.5 * a.tie as real, (a.win + a.tie + a.los) as real);
    }
  }

  /** The rates lie between 0 and 100, the baseline saves nothing against itself, and latencies are in order. */
  lemma RatesInRange(rs: seq<CallRecord>, s: string)
    ensures var q := QualityRowOf(s, AggOf(rs, s));
      && 0.0 <= q.acceptRate <= 100.0 && 0.0 <= q.winRate <= 100.0
      && q.comp <= AggOf(rs, s).served
    ensures CostRowOf(BASELINE, AggOf(rs, BASELINE), AggOf(rs, BASELINE).cost).savings == 0.0
    ensures LatencyRowOf(s, AggOf(rs, s)).p50 <= LatencyRowOf(s, AggOf(rs, s)).p95
         <= LatencyRowOf(s, AggOf(rs, s)).p99
  {
    var a := AggOf(rs, s);
    AggregateIs(rs, s);
    RateBounds(s, a);
    PercentileMonotone(a.lat, 50.0, 95.0);
    PercentileMonotone(a.lat, 95.0, 99.0);
  }

  /** With ratings in 1..5 the mean normalised quality lies between 0 and 1. */
  lemma {:induction false} QualityInRange(rs: seq<CallRecord>, s: string)
    requires forall r | r in rs && !r.blocked :: 1.0 <= r.quality <= 5.0
    ensures forall x | x in AggOf(rs, s).qNorm :: 0.0 <= x <= 1.0
    ensures 0.0 <= QualityRowOf(s, AggOf(rs, s)).meanQuality <= 1.0
  {
    if rs != [] {
      QualityInRange(rs[..|rs| - 1], s);
    }
    var v := AggOf(rs, s).qNorm;
    if v != [] {
      SumOfMono(v, x => 0.0, x => x);
      SumOfMono(v, x => x, x => 1.0);
      SumOfConst(v, (x: real) => 0.0, 0.0);
      SumOfConst(v, (x: real) => 1.0, 1.0);
      PercentBounds(SumOf(v, x => x), |v| as real);
    }
  }

  /** Without cost below zero, the savings of a strategy are at most 100 percent. */
  lemma SavingsBounded(rs: seq<CallRecord>, s: string)
    requires forall r | r in rs && !r.blocked :: r.costEUR >= 0.0
    ensures CostRowOf(s, AggOf(rs, s), AggOf(rs, BASELINE).cost).savings <= 100.0
  {
    var premium := AggOf(rs, BASELINE).cost;
    CostNonNegative(rs, s);
    if premium > 0.0 {
      DivMono(premium - AggOf(rs, s).cost, premium, premium);
    }
  }

  lemma {:induction false} CostNonNegative(rs: seq<CallRecord>, s: string)
    requires forall r | r in rs && !r.blocked :: r.costEUR >= 0.0
    ensures AggOf(rs, s).cost >= 0.0
  {
    if rs != [] {
      CostNonNegative(rs[..|rs| - 1], s);
    }
  }

  // ---------- what the published figures mean ----------

  /** A live model other than the premium: its verdict counts. */
  ghost predicate AllVerdicts(samples: seq<CallRecord>, v: string) {
    && (exists r | r in samples :: WithVerdict(v)(r))
    && forall r | r in samples :: r.modelID != "" && r.isReal && r.reroute ==> r.win == v
  }

  lemma OneVerdict(samples: seq<CallRecord>, v: string, other: string)
    requires AllVerdicts(samples, v) && other != v
    ensures CountIf(samples, WithVerdict(v)) > 0 && CountIf(samples, WithVerdict(other)) == 0
  {
    CountIfNone(samples, WithVerdict(v));
    CountIfNone(samples, WithVerdict(other));
  }

  lemma SoleShare(n: nat, share: real)
    requires n > 0
    ensures Ratio(share * n as real, n as real) == share
  {
    QuotientIs(share * n as real, n as real, share);
  }

  lemma SoleVerdict(s: string, a: Agg)
    requires a.win + a.tie + a.los > 0
    ensures a.tie == a.los == 0 ==> QualityRowOf(s, a).winRate == 100.0
    ensures a.win == a.tie == 0 ==> QualityRowOf(s, a).winRate == 0.0
    ensures a.win == a.los == 0 ==> QualityRowOf(s, a).winRate == 50.0
  {
    var n := a.win + a.tie + a.los;
    SoleShare(n, 1.0);
    SoleShare(n, 0.0);
    SoleShare(n, 0.5);
  }

  /** Winning every comparison is a win rate of 100, losing every one 0, and ties alone 50. */
  lemma WinRateIs(rs: seq<CallRecord>, s: string, v: string)
    requires AllVerdicts(Samples(rs, s), v) && v in {"win", "lose", "tie"}
    ensures QualityRowOf(s, AggOf(rs, s)).winRate == if v == "win" then 100.0 else if v == "tie" then 50.0 else 0.0
  {
    AggregateCounts(rs, s);
    OneVerdict(Samples(rs, s), v, if v == "win" then "tie" else "win");
    OneVerdict(Samples(rs, s), v, if v == "lose" then "tie" else "lose");
    SoleVerdict(s, AggOf(rs, s));
  }

  /** A percentage times its whole. */
  lemma PercentTimes(x: real, y: real)
    requires y > 0.0
    ensures Mul(Ratio(x, y) * 100.0, y) == 100.0 * x
  {
    QuotientTimes(x, y);
  }

  /** The rates, times what they are taken over. */
  lemma RatesAre(s: string, a: Agg)
    ensures var q := QualityRowOf(s, a);
      && Mul(q.acceptRate, a.served as real) == 100.0 * a.accept as real
      && Mul(q.winRate, (a.win + a.tie + a.los) as real) == 100.0 * a.win as real + 50.0 * a.tie as real
      && q.comp == a.win + a.tie + a.los
    requires Bounded(a)
  {
    if a.served > 0 { PercentTimes(a.accept as real, a.served as real); }
    if a.win + a.tie + a.los > 0 {
      PercentTimes(a.win as real + 0.5 * a.tie as real, (a.win + a.tie + a.los) as real);
    }
  }

  lemma MeanTimes(v: seq<real>)
    ensures Mul(Mean(v), |v| as real) == SumOf(v, x => x)
  {
    if v != [] { QuotientTimes(SumOf(v, x => x), |v| as real); }
  }

  /** The cost per request and per token, and the savings, times what they are taken over. */
  lemma CostRowIs(s: string, a: Agg, premiumTotal: real)
    ensures var c := CostRowOf(s, a, premiumTotal);
      && (a.served > 0 ==> Mul(c.costPerReq, a.served as real) == a.cost)
      && (a.inTok + a.outTok > 0 ==> Mul(c.costPerTok, (a.inTok + a.outTok) as real) == a.cost)
      && (premiumTotal > 0.0 ==> Mul(c.savings, premiumTotal) == 100.0 * (premiumTotal - a.cost))
  {
    if a.served > 0 { QuotientTimes(a.cost, a.served as real); }
    if a.inTok + a.outTok > 0 { QuotientTimes(a.cost, (a.inTok + a.outTok) as real); }
    if premiumTotal > 0.0 { PercentTimes(premiumTotal - a.cost, premiumTotal); }
  }

  /** The mean quality, latency and routing time, times what they are taken over. */
  lemma MeansAre(s: string, a: Agg)
    ensures Mul(QualityRowOf(s, a).meanQuality, |a.qNorm| as real) == SumOf(a.qNorm, x => x)
    ensures Mul(LatencyRowOf(s, a).mean, |a.lat| as real) == SumOf(a.lat, x => x)
    ensures Mul(LatencyRowOf(s, a).routingUS * 1000.0, |a.routeNS| as real) == SumOf(a.routeNS, x => x)
  {
    MeanTimes(a.qNorm);
    MeanTimes(a.lat);
    MeanTimes(a.routeNS);
  }
}
