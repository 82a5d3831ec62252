/** The sovereignty experiment (RunSovereignty in experimentation/internal/runner/runner_rqs.go). */
module SovereigntyRun {
  import opened Catalog
  import opened Engine
  import opened Router
  import opened RoutingProperties
  import opened Runner
  import opened Strategies
  import opened Sums
  import opened Workloads
  import opened Wrappers

  function Sensitive(j: Job): bool {
    j.p.sensitive || j.w.defaultSensitive
  }

  /** One scenario and strategy of the experiment, with the sovereignty check its violations are counted by. */
  datatype Trial = Trial(name: string, choose: Strategy, scenario: Scenario, violates: (Model, bool) -> bool)

  function PremiumTrial(norm: Normalizer, models: Models, sc: Scenario): Trial {
    Trial("B1-premium-static", PremiumStrategy(norm, models), sc, (m, sensitive) => Violates(norm, m, sc, sensitive))
  }

  function OursTrial(norm: Normalizer, models: Models, sc: Scenario): Trial {
    Trial("B6-ours", OursStrategy(norm, models), sc, (m, sensitive) => Violates(norm, m, sc, sensitive))
  }

  function RequestOf(x: Trial, j: Job): Request {
    RequestFor(j.w, j.p, x.scenario, j.w.monthlyBudgetEUR, 0.0)
  }

  datatype Tally = Tally(cost: real, served: nat, blocked: nat, violations: nat, reroutes: nat,
                         qualities: seq<real>, records: seq<CallRecord>)

  const ZERO := Tally(0.0, 0, 0, 0, 0, [], [])

  function RecordOf(x: Trial, j: Job, m: Model, v: Served): CallRecord {
    CallRecord(x.name, j.w.name, j.w.team, j.p.id, m.id, x.scenario.name, m.isReal, false, v.usage, v.cost, v.latencyMS, 0,
               v.quality, "", x.violates(m, Sensitive(j)), m.id != j.w.premiumModel)
  }

  function Count(x: Trial, t: Tally, j: Job, m: Model, v: Served): Tally {
    Tally(t.cost + v.cost, t.served + 1, t.blocked,
          t.violations + if x.violates(m, Sensitive(j)) then 1 else 0,
          t.reroutes + if m.id != j.w.premiumModel then 1 else 0,
          t.qualities + [NormQuality(v.quality)], t.records + [RecordOf(x, j, m, v)])
  }

  /** One job more; nothing more after a failure. */
  function TallyStep(x: Trial, s: Setting, g: Progress<Tally>, j: Job): Progress<Tally> {
    if g.failure.Some? then g
    else
      var d := x.choose(RequestOf(x, j));
      if d.blocked then g.(state := g.state.(blocked := g.state.blocked + 1))
      else
        var m := Lookup(s.models, d.modelID);
        var (v, c) := ServeFrom(s.env, g.caches, m, j.p);
        match v
        case Err(e) => g.(failure := Some(e), caches := c)
        case Ok(served) => Progress(Count(x, g.state, j, m, served), None, c)
  }

  /** The tally of a trial over the jobs up to the first call error, from the caches c. */
  function TallyFrom(x: Trial, s: Setting, jobs: seq<Job>, c: Caches): Progress<Tally> {
    if jobs == [] then Progress(ZERO, None, c)
    else TallyStep(x, s, TallyFrom(x, s, jobs[..|jobs| - 1], c), jobs[|jobs| - 1])
  }

  lemma {:induction false} TallyStops(x: Trial, s: Setting, jobs: seq<Job>, more: seq<Job>, c: Caches)
    requires jobs <= more && TallyFrom(x, s, jobs, c).failure.Some?
    ensures TallyFrom(x, s, more, c) == TallyFrom(x, s, jobs, c)
    decreases |more|
  {
    if |jobs| < |more| {
      assert more[..|more| - 1][..|jobs|] == more[..|jobs|] == jobs;
      TallyStops(x, s, jobs, more[..|more| - 1], c);
    } else {
      assert jobs == more;
    }
  }

  /** The job at i, after the jobs before it. */
  lemma TallyNext(x: Trial, s: Setting, before: seq<Job>, here: seq<Job>, i: nat, c: Caches)
    requires i < |here|
    ensures before + here[..i + 1] <= before + here
    ensures TallyFrom(x, s, before + here[..i + 1], c) == TallyStep(x, s, TallyFrom(x, s, before + here[..i], c), here[i])
  {
    var next := before + here[..i + 1];
    assert next[..|next| - 1] == before + here[..i];
  }

  // ---------- the loops ----------

  /** The engine after part of a trial that began with earlier in its log: no error, this tally, and its records. */
  ghost predicate At(e: Engine, g: Progress<Tally>, t: Tally, earlier: seq<CallRecord>)
    reads e
  {
    g == Progress(t, None, e.Contents()) && e.records == earlier + t.records
  }

  /** The engine after a trial, or the part of it before a call error: the log holds the calls served till then. */
  ghost predicate After(e: Engine, g: Progress<Tally>, r: Result<Tally, Error>, earlier: seq<CallRecord>)
    reads e
  {
    r == Finish(g) && e.Contents() == g.caches && e.records == earlier + g.state.records
  }

  /** The body of the prompt loop. */
  method RunJob(e: Engine, x: Trial, models: Models, t: Tally, j: Job, ghost g: Progress<Tally>,
                ghost earlier: seq<CallRecord>)
    returns (r: Result<Tally, Error>)
    requires At(e, g, t, earlier)
    modifies e`answerCache, e`acceptCache, e`asked, e`records
    ensures After(e, TallyStep(x, Setting(e.env, models), g, j), r, earlier)
  {
    var dec := x.choose(RequestOf(x, j));
    if dec.blocked {
      return Ok(t.(blocked := t.blocked + 1));
    }
    var m := Lookup(models, dec.modelID);
    var v := Serve(e, m, j.p);
    if v.Err? {
      return Err(v.error);
    }
    e.records := e.records + [RecordOf(x, j, m, v.value)];
    r := Ok(Count(x, t, j, m, v.value));
  }

  /** The inner loop: one workload's prompts, after the jobs of the workloads before it. */
  method RunWorkload(e: Engine, x: Trial, models: Models, t0: Tally, w: Workload, ghost before: seq<Job>, ghost c: Caches,
                     ghost earlier: seq<CallRecord>)
    returns (r: Result<Tally, Error>)
    requires At(e, TallyFrom(x, Setting(e.env, models), before, c), t0, earlier)
    modifies e`answerCache, e`acceptCache, e`asked, e`records
    ensures After(e, TallyFrom(x, Setting(e.env, models), before + JobsOf(w, w.prompts), c), r, earlier)
  {
    var t := t0;
    ghost var s, here := Setting(e.env, models), JobsOf(w, w.prompts);
    assert before + here[..0] == before;
    for i := 0 to |w.prompts|
      invariant At(e, TallyFrom(x, s, before + here[..i], c), t, earlier)
    {
      TallyNext(x, s, before, here, i, c);
      r := RunJob(e, x, models, t, Job(w, w.prompts[i]), TallyFrom(x, s, before + here[..i], c), earlier);
      if r.Err? {
        TallyStops(x, s, before + here[..i + 1], before + here, c);
        return;
      }
      t := r.value;
    }
    assert here[..|w.prompts|] == here;
    r := Ok(t);
  }

  /** One scenario and strategy over all workloads; the engine logs the served calls. */
  method RunTrial(e: Engine, x: Trial, models: Models, ws: seq<Workload>) returns (r: Result<Tally, Error>)
    modifies e`answerCache, e`acceptCache, e`asked, e`records
    ensures After(e, TallyFrom(x, Setting(e.env, models), Jobs(ws), old(e.Contents())), r, old(e.records))
  {
    var t := ZERO;
    ghost var s, c, earlier := Setting(e.env, models), e.Contents(), e.records;
    for i := 0 to |ws|
      invariant At(e, TallyFrom(x, s, Jobs(ws[..i]), c), t, earlier)
    {
      assert ws[..i + 1][..i] == ws[..i];
      r := RunWorkload(e, x, models, t, ws[i], Jobs(ws[..i]), c, earlier);
      if r.Err? {
        JobsPrefix(ws, i + 1);
        TallyStops(x, s, Jobs(ws[..i + 1]), Jobs(ws), c);
        return;
      }
      t := r.value;
    }
    assert ws[..|ws|] == ws;
    r := Ok(t);
  }

  /** Every scenario with the sovereignty-blind baseline, then with Ours. */
  function Trials(norm: Normalizer, models: Models, scs: seq<Scenario>): (xs: seq<Trial>)
    ensures |xs| == 2 * |scs|
  {
    if scs == [] then []
    else Trials(norm, models, scs[..|scs| - 1])
         + [PremiumTrial(norm, models, scs[|scs| - 1]), OursTrial(norm, models, scs[|scs| - 1])]
  }

  function RecordsOf(rows: seq<Tally>): seq<CallRecord> {
    if rows == [] then [] else RecordsOf(rows[..|rows| - 1]) + rows[|rows| - 1].records
  }

  /**
   The tallies of the trials in order, each from the caches the one before leaves, up to a call error; the
   last tally is then that of the jobs before the error.
   */
  function TrialsFrom(xs: seq<Trial>, s: Setting, jobs: seq<Job>, c: Caches): Progress<seq<Tally>> {
    if xs == [] then Progress([], None, c)
    else
      var g := TrialsFrom(xs[..|xs| - 1], s, jobs, c);
      if g.failure.Some? then g
      else
        var x := TallyFrom(xs[|xs| - 1], s, jobs, g.caches);
        Progress(g.state + [x.state], x.failure, x.caches)
  }

  lemma {:induction false} TrialsStop(xs: seq<Trial>, s: Setting, jobs: seq<Job>, c: Caches, k: nat)
    requires k <= |xs| && TrialsFrom(xs[..k], s, jobs, c).failure.Some?
    ensures TrialsFrom(xs, s, jobs, c) == TrialsFrom(xs[..k], s, jobs, c)
    decreases |xs|
  {
    if k < |xs| {
      assert xs[..|xs| - 1][..k] == xs[..k];
      TrialsStop(xs[..|xs| - 1], s, jobs, c, k);
    } else {
      assert xs[..k] == xs;
    }
  }

  lemma RecordsGrow(rows: seq<Tally>, row: Tally)
    ensures RecordsOf(rows + [row]) == RecordsOf(rows) + row.records
  {
    assert (rows + [row])[..|rows|] == rows;
  }

  /** The engine after some whole trials. */
  ghost predicate RowsAt(e: Engine, g: Progress<seq<Tally>>, rows: seq<Tally>, earlier: seq<CallRecord>)
    reads e
  {
    g == Progress(rows, None, e.Contents()) && e.records == earlier + RecordsOf(rows)
  }

  /** The engine after all trials, or those up to a call error. */
  ghost predicate RowsAfter(e: Engine, g: Progress<seq<Tally>>, r: Result<seq<Tally>, Error>, earlier: seq<CallRecord>)
    reads e
  {
    r == Finish(g) && e.Contents() == g.caches && e.records == earlier + RecordsOf(g.state)
  }

  function AddRow(rows: seq<Tally>, x: Progress<Tally>): Progress<seq<Tally>> {
    Progress(rows + [x.state], x.failure, x.caches)
  }

  lemma TrialsNext(xs: seq<Trial>, s: Setting, jobs: seq<Job>, c: Caches, k: nat, rows: seq<Tally>, at: Caches)
    requires k < |xs| && TrialsFrom(xs[..k], s, jobs, c) == Progress(rows, None, at)
    ensures TrialsFrom(xs[..k + 1], s, jobs, c) == AddRow(rows, TallyFrom(xs[k], s, jobs, at))
  {
    assert xs[..k + 1][..k] == xs[..k];
  }

  /** One more trial, run on an engine that holds the records of the trials before it. */
  lemma RowAdded(e: Engine, rows: seq<Tally>, x: Progress<Tally>, earlier: seq<CallRecord>, row: Result<Tally, Error>)
    requires After(e, x, row, earlier + RecordsOf(rows))
    ensures row.Ok? ==> RowsAt(e, AddRow(rows, x), rows + [row.value], earlier)
    ensures row.Err? ==> x.failure.Some? && RowsAfter(e, AddRow(rows, x), Err(row.error), earlier)
  {
    RecordsGrow(rows, x.state);
    assert earlier + RecordsOf(rows) + x.state.records == earlier + (RecordsOf(rows) + x.state.records);
  }

  method RunTrials(e: Engine, xs: seq<Trial>, models: Models, ws: seq<Workload>) returns (r: Result<seq<Tally>, Error>)
    modifies e`answerCache, e`acceptCache, e`asked, e`records
    ensures RowsAfter(e, TrialsFrom(xs, Setting(e.env, models), Jobs(ws), old(e.Contents())), r, old(e.records))
  {
    ghost var s, c, earlier, jobs := Setting(e.env, models), e.Contents(), e.records, Jobs(ws);
    var rows: seq<Tally> := [];
    for k := 0 to |xs|
      invariant RowsAt(e, TrialsFrom(xs[..k], s, jobs, c), rows, earlier)
    {
      ghost var at := e.Contents();
      TrialsNext(xs, s, jobs, c, k, rows, at);
      var row := RunTrial(e, xs[k], models, ws);
      RowAdded(e, rows, TallyFrom(xs[k], s, jobs, at), earlier, row);
      if row.Err? {
        TrialsStop(xs, s, jobs, c, k + 1);
        return Err(row.error);
      }
      rows := rows + [row.value];
    }
    assert xs[..|xs|] == xs;
    r := Ok(rows);
  }

  /** The rows of the experiment; the log gains the records of every served call. */
  method RunSovereignty(e: Engine, norm: Normalizer, models: Models, ws: seq<Workload>)
    returns (r: Result<seq<Tally>, Error>)
    modifies e`answerCache, e`acceptCache, e`asked, e`records
    ensures RowsAfter(e, TrialsFrom(Trials(norm, models, SCENARIOS), Setting(e.env, models), Jobs(ws), old(e.Contents())),
                      r, old(e.records))
  {
    r := RunTrials(e, Trials(norm, models, SCENARIOS), models, ws);
  }

  // ---------- what a trial counts ----------

  /** The counters of a trial are those of its log, and every job is served or blocked unless a call failed. */
  lemma {:induction false} TallyCounts(x: Trial, s: Setting, jobs: seq<Job>, c: Caches)
    ensures var g := TallyFrom(x, s, jobs, c);
      var t := g.state;
      && (g.failure.None? ==> t.served + t.blocked == |jobs|)
      && t.served == |t.records| == |t.qualities|
      && t.cost == SumOf(t.records, (r: CallRecord) => r.costEUR)
      && t.violations == CountIf(t.records, (r: CallRecord) => r.sovViolation)
      && t.reroutes == CountIf(t.records, (r: CallRecord) => r.reroute)
  {
    if jobs != [] {
      TallyCounts(x, s, jobs[..|jobs| - 1], c);
      var t, t' := TallyFrom(x, s, jobs[..|jobs| - 1], c).state, TallyFrom(x, s, jobs, c).state;
      if |t'.records| > |t.records| {
        var last := t'.records[|t.records|];
        assert t'.records == t.records + [last] && t'.records[..|t.records|] == t.records;
        SumOfSnoc(t.records, last, (r: CallRecord) => r.costEUR);
      }
    }
  }

  // ---------- Ours ----------

  /** No allowed catalog model may serve the job. */
  ghost predicate Stuck(norm: Normalizer, models: Models, sc: Scenario, j: Job) {
    forall id | id in j.w.allowedModels && id in models :: Violates(norm, models[id], sc, Sensitive(j))
  }

  lemma OursBlocks(norm: Normalizer, models: Models, sc: Scenario, j: Job)
    requires Keyed(models)
    ensures var x := OursTrial(norm, models, sc);
      var d := x.choose(RequestOf(x, j));
      && (d.blocked <==> Stuck(norm, models, sc, j))
      && (!d.blocked ==> !x.violates(Lookup(models, d.modelID), Sensitive(j)))
  {
    var x := OursTrial(norm, models, sc);
    var ctx := RequestOf(x, j);
    OursMinimises(DEFAULT_WEIGHTS, norm, ctx, models);
    var ok := Candidates(norm, ctx, models);
    if ok == [] {
      forall id | id in j.w.allowedModels && id in models ensures Violates(norm, models[id], sc, Sensitive(j)) {
        CandidateMember(norm, ctx, models, models[id]);
      }
    } else {
      CandidateMember(norm, ctx, models, ok[0]);
      FilteredChoiceComplies(0, DEFAULT_WEIGHTS, norm, ctx, models, ChooseOurs(DEFAULT_WEIGHTS, norm, ctx, models));
    }
  }

  ghost function StuckCount(norm: Normalizer, models: Models, sc: Scenario, jobs: seq<Job>): nat {
    if jobs == [] then 0
    else StuckCount(norm, models, sc, jobs[..|jobs| - 1])
         + if Stuck(norm, models, sc, jobs[|jobs| - 1]) then 1 else 0
  }

  /** Ours violates nothing and, without call errors, blocks exactly the jobs no allowed model may serve. */
  lemma {:induction false} OursTally(norm: Normalizer, s: Setting, sc: Scenario, jobs: seq<Job>, c: Caches)
    requires Keyed(s.models)
    ensures var g := TallyFrom(OursTrial(norm, s.models, sc), s, jobs, c);
      && g.state.violations == 0
      && (g.failure.None? ==> g.state.blocked == StuckCount(norm, s.models, sc, jobs))
  {
    if jobs != [] {
      OursTally(norm, s, sc, jobs[..|jobs| - 1], c);
      OursBlocks(norm, s.models, sc, jobs[|jobs| - 1]);
    }
  }

  /** A stricter scenario blocks at least as much. */
  lemma {:induction false} StricterBlocksMore(norm: Normalizer, models: Models, sc: Scenario, sc': Scenario, jobs: seq<Job>)
    requires forall m, sensitive :: Violates(norm, m, sc, sensitive) ==> Violates(norm, m, sc', sensitive)
    ensures StuckCount(norm, models, sc, jobs) <= StuckCount(norm, models, sc', jobs)
  {
    if jobs != [] {
      StricterBlocksMore(norm, models, sc, sc', jobs[..|jobs| - 1]);
      var j := jobs[|jobs| - 1];
      if Stuck(norm, models, sc, j) {
        assert Stuck(norm, models, sc', j);
      }
    }
  }

  // ---------- the baseline ----------

  /** The model the runner calls for a premium decision; it is the premium model unless the catalog lacks that. */
  function PremiumServed(models: Models, j: Job): Model {
    Lookup(models, Lookup(models, j.w.premiumModel).id)
  }

  /** The jobs whose premium model does not comply. */
  function PremiumViolations(norm: Normalizer, models: Models, sc: Scenario, jobs: seq<Job>): nat {
    CountIf(jobs, j => Violates(norm, PremiumServed(models, j), sc, Sensitive(j)))
  }

  /** Without call errors the baseline serves everything and violates with every job whose premium model does not comply. */
  lemma {:induction false} PremiumTally(norm: Normalizer, s: Setting, sc: Scenario, jobs: seq<Job>, c: Caches)
    requires TallyFrom(PremiumTrial(norm, s.models, sc), s, jobs, c).failure.None?
    ensures var t := TallyFrom(PremiumTrial(norm, s.models, sc), s, jobs, c).state;
      && t.blocked == 0 && t.served == |jobs|
      && t.violations == PremiumViolations(norm, s.models, sc, jobs)
      && t.reroutes == CountIf(jobs, j => PremiumServed(s.models, j).id != j.w.premiumModel)
  {
    if jobs != [] {
      PremiumTally(norm, s, sc, jobs[..|jobs| - 1], c);
    }
  }

  /** With its premium models in the catalog it reroutes nothing. */
  lemma {:induction false} NoReroutes(models: Models, jobs: seq<Job>)
    requires Keyed(models) && forall j | j in jobs :: j.w.premiumModel in models
    ensures CountIf(jobs, j => PremiumServed(models, j).id != j.w.premiumModel) == 0
  {
    if jobs != [] {
      NoReroutes(models, jobs[..|jobs| - 1]);
    }
  }

  // ---------- the experiment ----------

  /** The caches a row's trial started from. */
  lemma {:induction false} RowAt(xs: seq<Trial>, s: Setting, jobs: seq<Job>, c: Caches, k: nat) returns (c': Caches)
    requires k < |xs| && TrialsFrom(xs, s, jobs, c).failure.None?
    ensures |TrialsFrom(xs, s, jobs, c).state| == |xs|
    ensures TallyFrom(xs[k], s, jobs, c').state == TrialsFrom(xs, s, jobs, c).state[k]
    ensures TallyFrom(xs[k], s, jobs, c').failure.None?
  {
    var init, n := xs[..|xs| - 1], |xs| - 1;
    if n > 0 {
      var c0 := RowAt(init, s, jobs, c, if k < n then k else 0);
      c' := if k < n then c0 else TrialsFrom(init, s, jobs, c).caches;
    } else {
      c' := c;
    }
  }

  lemma TrialsAt(norm: Normalizer, models: Models, scs: seq<Scenario>, k: nat)
    requires k < |scs|
    ensures Trials(norm, models, scs)[2 * k] == PremiumTrial(norm, models, scs[k])
    ensures Trials(norm, models, scs)[2 * k + 1] == OursTrial(norm, models, scs[k])
  {
  }

  /** The two rows of a scenario: the baseline blocks nothing, Ours violates nothing. */
  ghost predicate ScenarioFacts(norm: Normalizer, models: Models, jobs: seq<Job>, sc: Scenario, base: Tally, ours: Tally) {
    && base.served == |jobs| && base.blocked == 0
    && base.violations == PremiumViolations(norm, models, sc, jobs)
    && ours.served + ours.blocked == |jobs|
    && ours.violations == 0 && ours.blocked == StuckCount(norm, models, sc, jobs)
  }

  /** Who may not serve a job under the k-th scenario, spelled out. */
  predicate RuledOut(norm: Normalizer, k: nat, m: Model, j: Job) {
    var zone, exposed := norm(m.zone), m.managed && (j.p.sensitive || j.w.defaultSensitive);
    match k
    case 0 => false
    case 1 => zone !in {"EU", "FR", "DE", "ES", "IT", "NL", "BE", "LU", "IE", "PT", "AT", "FI", "SE", "DK", "PL"}
    case 2 => zone != "FR"
    case 3 => exposed
    case _ => zone != "FR" || exposed
  }

  lemma RuledOutIs(norm: Normalizer, k: nat, m: Model, j: Job)
    requires FixesCodes(norm) && k < 5
    ensures RuledOut(norm, k, m, j) <==> Violates(norm, m, SCENARIOS[k], Sensitive(j))
  {
    WhoViolates(norm, m, Sensitive(j));
  }

  ghost predicate NoneLeft(norm: Normalizer, models: Models, k: nat, j: Job) {
    forall id | id in j.w.allowedModels && id in models :: RuledOut(norm, k, models[id], j)
  }

  ghost function NoneLeftCount(norm: Normalizer, models: Models, k: nat, jobs: seq<Job>): nat {
    if jobs == [] then 0
    else NoneLeftCount(norm, models, k, jobs[..|jobs| - 1]) + if NoneLeft(norm, models, k, jobs[|jobs| - 1]) then 1 else 0
  }

  function RuledOutPremium(norm: Normalizer, models: Models, k: nat): Job -> bool {
    j => RuledOut(norm, k, PremiumServed(models, j), j)
  }

  lemma {:induction false} NoneLeftIsStuck(norm: Normalizer, models: Models, k: nat, jobs: seq<Job>)
    requires FixesCodes(norm) && k < 5
    ensures NoneLeftCount(norm, models, k, jobs) == StuckCount(norm, models, SCENARIOS[k], jobs)
  {
    if jobs != [] {
      NoneLeftIsStuck(norm, models, k, jobs[..|jobs| - 1]);
      var j := jobs[|jobs| - 1];
      forall id | id in models ensures RuledOut(norm, k, models[id], j) <==> Violates(norm, models[id], SCENARIOS[k], Sensitive(j)) {
        RuledOutIs(norm, k, models[id], j);
      }
    }
  }

  /** The violations of the baseline and the blocked jobs of Ours under the k-th scenario, by zone and provider. */
  ghost predicate SpelledOut(norm: Normalizer, models: Models, jobs: seq<Job>, k: nat, base: Tally, ours: Tally) {
    && base.violations == CountIf(jobs, RuledOutPremium(norm, models, k))
    && ours.blocked == NoneLeftCount(norm, models, k, jobs)
  }

  lemma SpellOut(norm: Normalizer, models: Models, jobs: seq<Job>, k: nat, base: Tally, ours: Tally)
    requires FixesCodes(norm) && k < 5 && ScenarioFacts(norm, models, jobs, SCENARIOS[k], base, ours)
    ensures SpelledOut(norm, models, jobs, k, base, ours)
  {
    var sc := SCENARIOS[k];
    var f := (j: Job) => Violates(norm, PremiumServed(models, j), sc, Sensitive(j));
    forall j ensures f(j) == RuledOutPremium(norm, models, k)(j) {
      RuledOutIs(norm, k, PremiumServed(models, j), j);
    }
    CountIfCong(jobs, f, RuledOutPremium(norm, models, k));
    CountIfCong(jobs, f, j => Violates(norm, PremiumServed(models, j), sc, Sensitive(j)));
    NoneLeftIsStuck(norm, models, k, jobs);
  }

  lemma ScenarioRows(norm: Normalizer, s: Setting, jobs: seq<Job>, c: Caches, scs: seq<Scenario>, k: nat)
    requires Keyed(s.models) && k < |scs|
    requires TrialsFrom(Trials(norm, s.models, scs), s, jobs, c).failure.None?
    ensures var rows := TrialsFrom(Trials(norm, s.models, scs), s, jobs, c).state;
      |rows| == 2 * |scs| && ScenarioFacts(norm, s.models, jobs, scs[k], rows[2 * k], rows[2 * k + 1])
  {
    var xs := Trials(norm, s.models, scs);
    TrialsAt(norm, s.models, scs, k);
    var c0 := RowAt(xs, s, jobs, c, 2 * k);
    PremiumTally(norm, s, scs[k], jobs, c0);
    var c1 := RowAt(xs, s, jobs, c, 2 * k + 1);
    OursTally(norm, s, scs[k], jobs, c1);
    TallyCounts(xs[2 * k + 1], s, jobs, c1);
  }

  /**
   The sovereignty experiment without call errors, from any caches: what every scenario's two rows count, also spelled
   out by zone and provider, and Ours blocks no less as the scenario narrows.
   */
  lemma SovereigntyExperiment(norm: Normalizer, s: Setting, jobs: seq<Job>, c: Caches)
    requires Keyed(s.models) && FixesCodes(norm)
    requires TrialsFrom(Trials(norm, s.models, SCENARIOS), s, jobs, c).failure.None?
    ensures var rows := TrialsFrom(Trials(norm, s.models, SCENARIOS), s, jobs, c).state;
      && |rows| == 10
      && (forall k | 0 <= k < 5 :: ScenarioFacts(norm, s.models, jobs, SCENARIOS[k], rows[2 * k], rows[2 * k + 1]))
      && (forall k: nat | k < 5 :: SpelledOut(norm, s.models, jobs, k, rows[2 * k], rows[2 * k + 1]))
      && rows[1].blocked <= rows[3].blocked <= rows[5].blocked <= rows[9].blocked
      && rows[1].blocked <= rows[7].blocked <= rows[9].blocked
  {
    var rows := TrialsFrom(Trials(norm, s.models, SCENARIOS), s, jobs, c).state;
    ScenarioRows(norm, s, jobs, c, SCENARIOS, 0);
    forall k | 0 <= k < 5 ensures ScenarioFacts(norm, s.models, jobs, SCENARIOS[k], rows[2 * k], rows[2 * k + 1]) {
      ScenarioRows(norm, s, jobs, c, SCENARIOS, k);
    }
    forall k: nat | k < 5 ensures SpelledOut(norm, s.models, jobs, k, rows[2 * k], rows[2 * k + 1]) {
      SpellOut(norm, s.models, jobs, k, rows[2 * k], rows[2 * k + 1]);
    }
    FiveScenarios(norm, s.models, jobs, rows);
  }

  lemma FiveScenarios(norm: Normalizer, models: Models, jobs: seq<Job>, rows: seq<Tally>)
    requires FixesCodes(norm) && |rows| == 10
    requires forall k | 0 <= k < 5 :: ScenarioFacts(norm, models, jobs, SCENARIOS[k], rows[2 * k], rows[2 * k + 1])
    ensures rows[1].blocked <= rows[3].blocked <= rows[5].blocked <= rows[9].blocked
    ensures rows[1].blocked <= rows[7].blocked <= rows[9].blocked
  {
    assert ScenarioFacts(norm, models, jobs, SCENARIOS[0], rows[2 * 0], rows[2 * 0 + 1]);
    assert ScenarioFacts(norm, models, jobs, SCENARIOS[1], rows[2 * 1], rows[2 * 1 + 1]);
    assert ScenarioFacts(norm, models, jobs, SCENARIOS[2], rows[2 * 2], rows[2 * 2 + 1]);
    assert ScenarioFacts(norm, models, jobs, SCENARIOS[3], rows[2 * 3], rows[2 * 3 + 1]);
    assert ScenarioFacts(norm, models, jobs, SCENARIOS[4], rows[2 * 4], rows[2 * 4 + 1]);
    ScenarioChain(norm, models, jobs);
  }

  lemma ScenarioChain(norm: Normalizer, models: Models, jobs: seq<Job>)
    requires FixesCodes(norm)
    ensures StuckCount(norm, models, GLOBAL, jobs) <= StuckCount(norm, models, EU_ONLY, jobs)
         <= StuckCount(norm, models, FRANCE_ONLY, jobs) <= StuckCount(norm, models, SELF_HOSTED, jobs)
    ensures StuckCount(norm, models, GLOBAL, jobs) <= StuckCount(norm, models, NO_EXTERNAL, jobs)
         <= StuckCount(norm, models, SELF_HOSTED, jobs)
  {
    forall m, sensitive
      ensures !Violates(norm, m, GLOBAL, sensitive)
      ensures Violates(norm, m, EU_ONLY, sensitive) ==> Violates(norm, m, FRANCE_ONLY, sensitive)
      ensures Violates(norm, m, FRANCE_ONLY, sensitive) ==> Violates(norm, m, SELF_HOSTED, sensitive)
      ensures Violates(norm, m, NO_EXTERNAL, sensitive) ==> Violates(norm, m, SELF_HOSTED, sensitive)
    {
      ScenariosNarrow(norm, m, sensitive);
    }
    StricterBlocksMore(norm, models, GLOBAL, EU_ONLY, jobs);
    StricterBlocksMore(norm, models, EU_ONLY, FRANCE_ONLY, jobs);
    StricterBlocksMore(norm, models, FRANCE_ONLY, SELF_HOSTED, jobs);
    StricterBlocksMore(norm, models, GLOBAL, NO_EXTERNAL, jobs);
    StricterBlocksMore(norm, models, NO_EXTERNAL, SELF_HOSTED, jobs);
  }
}
