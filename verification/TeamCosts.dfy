/**
 The cost table by team of the main matrix (experimentation/internal/runner/runner_rqs.go), priced a second time
 through the operator's cost engine (operateur/internal/costengine), and its agreement with the cost table.
 */
module TeamCosts {
  import opened Catalog
  import opened Engine
  import opened Grouping
  import opened MatrixReport
  import opened Perms
  import opened Router
  import opened Sorting
  import opened Sums

  function ByTeam(): CallRecord -> string {
    (r: CallRecord) => r.team
  }

  /** The cost engine's price of a sample; a model missing from the price book costs nothing. */
  function Priced(models: Models): CallRecord -> real {
    (r: CallRecord) => TokenCost(Lookup(models, r.modelID), r.usage.inputTokens, r.usage.outputTokens)
  }

  function TeamCost(samples: seq<CallRecord>, models: Models): string -> real {
    PerKey(Named(samples, ByTeam(), true), ByTeam(), Priced(models))
  }

  datatype TeamRow = TeamRow(strategy: string, team: string, cost: real)

  /** The teams of a strategy's samples, in order. */
  function Teams(samples: seq<CallRecord>): seq<string> {
    Sort(FirstSeen(Named(samples, ByTeam(), true), ByTeam()), StrLe)
  }

  function RowsOf(s: string, teams: seq<string>, cost: string -> real): seq<TeamRow> {
    seq(|teams|, i requires 0 <= i < |teams| => TeamRow(s, teams[i], cost(teams[i])))
  }

  function TableOf(order: seq<string>, rs: seq<CallRecord>, models: Models): seq<TeamRow> {
    if order == [] then []
    else
      var s := order[|order| - 1];
      TableOf(order[..|order| - 1], rs, models)
      + RowsOf(s, Teams(Samples(rs, s)), TeamCost(Samples(rs, s), models))
  }

  /** The loop that collects a strategy's samples. */
  method CollectSamples(matrix: seq<CallRecord>, s: string) returns (samples: seq<CallRecord>)
    ensures samples == Samples(matrix, s)
  {
    samples := [];
    for i := 0 to |matrix|
      invariant samples == Samples(matrix[..i], s)
    {
      assert matrix[..i + 1][..i] == matrix[..i];
      if matrix[i].strategy == s && !matrix[i].blocked {
        samples := samples + [matrix[i]];
      }
    }
    assert matrix[..|matrix|] == matrix;
  }

  /** The rows of one strategy, from the totals of its teams. */
  method WriteTeams(s: string, teams: seq<string>, totals: map<string, real>, ghost cost: string -> real)
    returns (rows: seq<TeamRow>)
    requires forall t | t in teams :: t in totals && totals[t] == cost(t)
    ensures rows == RowsOf(s, teams, cost)
  {
    rows := [];
    for i := 0 to |teams|
      invariant rows == RowsOf(s, teams, cost)[..i]
    {
      assert teams[i] in teams;
      rows := rows + [TeamRow(s, teams[i], totals[teams[i]])];
    }
  }

  /** The samples of one strategy through the cost engine. */
  method WriteStrategy(s: string, samples: seq<CallRecord>, models: Models) returns (rows: seq<TeamRow>)
    ensures rows == RowsOf(s, Teams(samples), TeamCost(samples, models))
  {
    var totals := Totals(samples, ByTeam(), Priced(models));
    TeamsAre(samples);
    rows := WriteTeams(s, Teams(samples), totals, TeamCost(samples, models));
  }

  lemma TableNext(order: seq<string>, rs: seq<CallRecord>, models: Models, k: nat)
    requires k < |order|
    ensures TableOf(order[..k + 1], rs, models)
         == TableOf(order[..k], rs, models)
            + RowsOf(order[k], Teams(Samples(rs, order[k])), TeamCost(Samples(rs, order[k]), models))
  {
    assert order[..k + 1][..k] == order[..k];
  }

  method WriteTable(order: seq<string>, matrix: seq<CallRecord>, models: Models) returns (rows: seq<TeamRow>)
    ensures rows == TableOf(order, matrix, models)
  {
    rows := [];
    for k := 0 to |order|
      invariant rows == TableOf(order[..k], matrix, models)
    {
      TableNext(order, matrix, models, k);
      var samples := CollectSamples(matrix, order[k]);
      var more := WriteStrategy(order[k], samples, models);
      rows := rows + more;
    }
    assert order[..|order|] == order;
  }

  /** rq1_cost_by_team.csv: a row for each strategy in first-seen order and each of its teams by name. */
  method WriteByTeam(matrix: seq<CallRecord>, models: Models) returns (rows: seq<TeamRow>)
    ensures rows == TableOf(FirstSeen(matrix, ByStrategy()), matrix, models)
  {
    var groups, order := Aggregate(matrix);
    rows := WriteTable(order, matrix, models);
  }

  /** The team list is the sorted list of the map's keys: sorted, no repetitions, the same members. */
  lemma TeamsAre(samples: seq<CallRecord>)
    ensures SortedBy(Teams(samples), StrLe) && Distinct(Teams(samples))
    ensures forall t :: t in Teams(samples) <==> t in FirstSeen(Named(samples, ByTeam(), true), ByTeam())
  {
    var seen := FirstSeen(Named(samples, ByTeam(), true), ByTeam());
    StringOrders();
    SortSorted(seen, StrLe);
    ListedOnce(Named(samples, ByTeam(), true), ByTeam());
    DistinctPerm(seen, Teams(samples));
    PermFacts(Teams(samples), seen);
  }

  // ---------- agreement of the two tables ----------

  lemma {:induction false} SamplesCost(rs: seq<CallRecord>, s: string, models: Models)
    requires forall r | r in rs && !r.blocked :: r.costEUR == Priced(models)(r)
    ensures SumOf(Samples(rs, s), Priced(models)) == AggOf(rs, s).cost
  {
    if rs != [] {
      var init, r := rs[..|rs| - 1], rs[|rs| - 1];
      SamplesCost(init, s, models);
      SumOfSnoc(Samples(init, s), r, Priced(models));
      assert Samples(init, s) + [] == Samples(init, s);
    }
  }

  /**
   When the records were priced from the catalog, the teams of a strategy and its served records without a team
   account for exactly its cost in the cost table.
   */
  lemma TeamsAccountForCost(rs: seq<CallRecord>, s: string, models: Models)
    requires forall r | r in rs && !r.blocked :: r.costEUR == Priced(models)(r)
    ensures SumOf(Teams(Samples(rs, s)), TeamCost(Samples(rs, s), models))
            + SumOf(Named(Samples(rs, s), ByTeam(), false), Priced(models)) == AggOf(rs, s).cost
  {
    var samples := Samples(rs, s);
    SamplesCost(rs, s, models);
    BreakdownAddsUp(samples, ByTeam(), Priced(models));
    SumOfPerm(Teams(samples), FirstSeen(Named(samples, ByTeam(), true), ByTeam()), TeamCost(samples, models));
  }
}
