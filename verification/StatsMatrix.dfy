/**
 Phase 2 of RunStatsMatrix (experimentation/internal/runner/runner_rqs.go) as an interleaved step system: main
 starts a goroutine per task under a counting semaphore, each goroutine calls the engine and fills its own
 slot, and main waits for all of them before it looks at the slots.
 */
module StatsMatrix {
  import opened Catalog
  import opened Engine
  import opened Router
  import opened Runner
  import opened StatsPlan
  import opened Workloads
  import opened Wrappers

  const CONCURRENCY: nat := 6

  // ---------- the sequential loop ----------

  /** The record of a served task. */
  datatype StatRecord = StatRecord(rep: nat, strategy: string, workload: string, promptID: string, modelID: string,
                                   isReal: bool, served: Served, reroute: bool)

  function RecordOf(t: Task, v: Served): StatRecord {
    StatRecord(t.rep, t.strategy, t.w.name, t.p.id, t.m.id, t.m.isReal, v, t.m.id != t.w.premiumModel)
  }

  function Process(env: Env, t: Task): Result<StatRecord, Error> {
    match ServeOn(env, t.m, t.p)
    case Ok(v) => Ok(RecordOf(t, v))
    case Err(e) => Err(e)
  }

  /** The records of the tasks in order, or the error of the first task that has one. */
  function Sequential(env: Env, ts: seq<Task>): Result<seq<StatRecord>, Error> {
    if ts == [] then Ok([])
    else
      match Sequential(env, ts[..|ts| - 1])
      case Err(e) => Err(e)
      case Ok(rs) =>
        match Process(env, ts[|ts| - 1])
        case Err(e) => Err(e)
        case Ok(r) => Ok(rs + [r])
  }

  // ---------- the states ----------

  /** A goroutine: not started, calling the model, asking the judge, and its two deferred calls in turn. */
  datatype Stage = Unborn | Asking | Judging(response: Response) | Releasing | Leaving | Gone

  /** main: at the top of the loop, after wg.Add, after the send on the semaphore, done with a result. */
  datatype Main = Top | Added | Holding | Finished(result: Result<seq<StatRecord>, Error>)

  /** sem and wg are the tokens in the semaphore and the counter of the wait group. */
  datatype State = State(stages: seq<Stage>, launched: nat, sem: nat, wg: nat, recs: seq<Option<StatRecord>>,
                         errs: seq<Option<Error>>, caches: Caches, main: Main)

  datatype Config = Config(env: Env, tasks: seq<Task>, caches: Caches)

  function Init(c: Config): State {
    var n := |c.tasks|;
    State(seq(n, _ => Unborn), 0, 0, 0, seq(n, _ => None), seq(n, _ => None), c.caches, Top)
  }

  /** The scan of the error slots: the lowest index wins. */
  function FirstErr(errs: seq<Option<Error>>): Option<Error> {
    if errs == [] then None
    else
      var e := FirstErr(errs[..|errs| - 1]);
      if e.Some? then e else errs[|errs| - 1]
  }

  const NO_RECORD := StatRecord(0, "", "", "", "", false, Served(Usage(0, 0), 0.0, 0, 0.0), false)

  function Collect(recs: seq<Option<StatRecord>>, errs: seq<Option<Error>>): Result<seq<StatRecord>, Error> {
    match FirstErr(errs)
    case Some(e) => Err(e)
    case None =>
      Ok(seq(|recs|, i requires 0 <= i < |recs| => if recs[i].Some? then recs[i].value else NO_RECORD))
  }

  // ---------- steps ----------

  datatype Label = Add | Acquire | Spawn | Ask(i: nat) | Judge(i: nat) | Release(i: nat) | Leave(i: nat) | Finish

  predicate Shaped(c: Config, s: State) {
    |s.stages| == |s.recs| == |s.errs| == |c.tasks| && s.launched <= |c.tasks|
  }

  predicate Enabled(c: Config, s: State, l: Label)
    requires Shaped(c, s)
  {
    match l
    case Add => s.main == Top && s.launched < |c.tasks|
    // A send on the full semaphore blocks.
    case Acquire => s.main == Added && s.sem < CONCURRENCY
    case Spawn => s.main == Holding && s.launched < |c.tasks|
    case Ask(i) => i < |s.stages| && s.stages[i] == Asking
    case Judge(i) => i < |s.stages| && s.stages[i].Judging?
    // A receive from the empty semaphore blocks.
    case Release(i) => i < |s.stages| && s.stages[i] == Releasing && s.sem > 0
    case Leave(i) => i < |s.stages| && s.stages[i] == Leaving && s.wg > 0
    case Finish => s.main == Top && s.launched == |c.tasks| && s.wg == 0
  }

  function Asked(c: Config, s: State, i: nat): State
    requires Shaped(c, s) && i < |c.tasks|
  {
    var call := CallModel(c.tasks[i].m, c.tasks[i].p);
    var s' := s.(caches := Left(c.env, s.caches, call));
    match Returned(c.env, s.caches, call)
    case Answered(Ok(r)) => s'.(stages := s.stages[i := Judging(r)])
    case Answered(Err(e)) => s'.(stages := s.stages[i := Releasing], errs := s.errs[i := Some(e)])
    case _ => s'
  }

  function Judged(c: Config, s: State, i: nat): State
    requires Shaped(c, s) && i < |c.tasks| && s.stages[i].Judging?
  {
    var t, r := c.tasks[i], s.stages[i].response;
    var call := Acceptability(t.m, t.p, r.text);
    var s' := s.(caches := Left(c.env, s.caches, call), stages := s.stages[i := Releasing]);
    match Returned(c.env, s.caches, call)
    case Rated(Ok(q)) =>
      var v := Served(r.usage, TokenCost(t.m, r.usage.inputTokens, r.usage.outputTokens), r.latencyMS, q);
      s'.(recs := s.recs[i := Some(RecordOf(t, v))])
    case Rated(Err(e)) => s'.(errs := s.errs[i := Some(e)])
    case _ => s'
  }

  function Apply(c: Config, s: State, l: Label): State
    requires Shaped(c, s) && Enabled(c, s, l)
  {
    match l
    case Add => s.(wg := s.wg + 1, main := Added)
    case Acquire => s.(sem := s.sem + 1, main := Holding)
    case Spawn => s.(stages := s.stages[s.launched := Asking], launched := s.launched + 1, main := Top)
    case Ask(i) => Asked(c, s, i)
    case Judge(i) => Judged(c, s, i)
    case Release(i) => s.(sem := s.sem - 1, stages := s.stages[i := Leaving])
    case Leave(i) => s.(wg := s.wg - 1, stages := s.stages[i := Gone])
    case Finish => s.(main := Finished(Collect(s.recs, s.errs)))
  }

  ghost predicate Step(c: Config, s: State, s': State) {
    exists l :: Shaped(c, s) && Enabled(c, s, l) && s' == Apply(c, s, l)
  }

  /** An interleaving of main and the goroutines. */
  ghost predicate Run(c: Config, r: seq<State>) {
    && r != [] && r[0] == Init(c)
    && forall i | 0 <= i < |r| - 1 :: Step(c, r[i], r[i + 1])
  }

  // ---------- counting goroutines ----------

  function Weigh(ss: seq<Stage>, f: Stage -> nat): nat {
    if ss == [] then 0 else f(ss[0]) + Weigh(ss[1..], f)
  }

  /** In flight: between its token in the semaphore and the deferred receive. */
  function InFlight(): Stage -> nat {
    (st: Stage) => if st == Unborn || st == Leaving || st == Gone then 0 else 1
  }

  function Pending(): Stage -> nat {
    (st: Stage) => if st == Unborn || st == Gone then 0 else 1
  }

  /** The steps a task still takes, its goroutine's own only. */
  function Remaining(): Stage -> nat {
    (st: Stage) => match st
          case Unborn => 4
          case Asking => 4
          case Judging(_) => 3
          case Releasing => 2
          case Leaving => 1
          case Gone => 0
  }

  lemma {:induction false} WeighUpdate(ss: seq<Stage>, i: nat, x: Stage, f: Stage -> nat)
    requires i < |ss|
    ensures Weigh(ss[i := x], f) + f(ss[i]) == Weigh(ss, f) + f(x)
  {
    if i == 0 {
      assert ss[0 := x][1..] == ss[1..];
    } else {
      assert ss[i := x][1..] == ss[1..][i - 1 := x];
      WeighUpdate(ss[1..], i - 1, x, f);
    }
  }

  lemma {:induction false} WeighAtLeast(ss: seq<Stage>, i: nat, f: Stage -> nat)
    requires i < |ss|
    ensures Weigh(ss, f) >= f(ss[i])
  {
    if i > 0 {
      WeighAtLeast(ss[1..], i - 1, f);
    }
  }

  lemma {:induction false} WeighPositive(ss: seq<Stage>, f: Stage -> nat) returns (i: nat)
    requires Weigh(ss, f) > 0
    ensures i < |ss| && f(ss[i]) > 0
  {
    if f(ss[0]) > 0 {
      i := 0;
    } else {
      i := WeighPositive(ss[1..], f);
      i := i + 1;
    }
  }

  lemma {:induction false} WeighConst(n: nat, x: Stage, f: Stage -> nat)
    ensures Weigh(seq(n, _ => x), f) == n * f(x)
  {
    if n > 0 {
      assert seq(n, _ => x)[1..] == seq(n - 1, _ => x);
      WeighConst(n - 1, x, f);
    }
  }

  // ---------- the invariant ----------

  /** The slots of a task at each stage of its goroutine. */
  predicate SlotRight(env: Env, t: Task, st: Stage, rec: Option<StatRecord>, err: Option<Error>) {
    match st
    case Unborn => rec == None && err == None
    case Asking => rec == None && err == None
    case Judging(r) => rec == None && err == None && Answer(env, t.m, t.p) == Ok(r)
    case _ => rec == Filled(Process(env, t)).0 && err == Filled(Process(env, t)).1
  }

  function Filled(r: Result<StatRecord, Error>): (Option<StatRecord>, Option<Error>) {
    match r
    case Ok(x) => (Some(x), None)
    case Err(e) => (None, Some(e))
  }

  ghost predicate Slots(c: Config, s: State)
    requires Shaped(c, s)
  {
    && s.caches == c.caches
    && (forall i | 0 <= i < |c.tasks| :: s.stages[i] == Unborn <==> i >= s.launched)
    && forall i | 0 <= i < |c.tasks| :: SlotRight(c.env, c.tasks[i], s.stages[i], s.recs[i], s.errs[i])
  }

  /** The semaphore and the wait group count the goroutines, and main's own share of them. */
  predicate Counted(stages: seq<Stage>, sem: nat, wg: nat, main: Main) {
    && sem == Weigh(stages, InFlight()) + (if main == Holding then 1 else 0)
    && sem <= CONCURRENCY
    && wg == Weigh(stages, Pending()) + (if main == Added || main == Holding then 1 else 0)
  }

  predicate Counts(c: Config, s: State)
    requires Shaped(c, s)
  {
    Counted(s.stages, s.sem, s.wg, s.main) && (s.main == Added || s.main == Holding ==> s.launched < |c.tasks|)
  }

  ghost predicate Concluded(c: Config, s: State)
    requires Shaped(c, s)
  {
    s.main.Finished? ==>
      && s.main.result == Sequential(c.env, c.tasks)
      && forall i | 0 <= i < |c.tasks| :: s.stages[i] == Gone
  }

  ghost predicate Inv(c: Config, s: State) {
    Shaped(c, s) && Slots(c, s) && Counts(c, s) && Concluded(c, s)
  }

  lemma InitInv(c: Config)
    ensures Inv(c, Init(c))
  {
    WeighConst(|c.tasks|, Unborn, InFlight());
    WeighConst(|c.tasks|, Unborn, Pending());
  }

  lemma AskKeepsSlots(c: Config, s: State, i: nat)
    requires c.env.bypass && Shaped(c, s) && Slots(c, s) && i < |c.tasks| && s.stages[i] == Asking
    ensures Shaped(c, Asked(c, s, i)) && Slots(c, Asked(c, s, i))
    ensures Asked(c, s, i).stages == s.stages[i := Asked(c, s, i).stages[i]]
    ensures Asked(c, s, i).stages[i].Judging? || Asked(c, s, i).stages[i] == Releasing
    ensures var s' := Asked(c, s, i); s'.sem == s.sem && s'.wg == s.wg && s'.main == s.main && s'.launched == s.launched
  {
  }

  lemma JudgeKeepsSlots(c: Config, s: State, i: nat)
    requires c.env.bypass && Shaped(c, s) && Slots(c, s) && i < |c.tasks| && s.stages[i].Judging?
    ensures Shaped(c, Judged(c, s, i)) && Slots(c, Judged(c, s, i))
    ensures Judged(c, s, i).stages == s.stages[i := Releasing]
    ensures var s' := Judged(c, s, i); s'.sem == s.sem && s'.wg == s.wg && s'.main == s.main && s'.launched == s.launched
  {
    assert SlotRight(c.env, c.tasks[i], s.stages[i], s.recs[i], s.errs[i]);
  }

  lemma SlotsKept(c: Config, s: State, l: Label)
    requires c.env.bypass && Shaped(c, s) && Slots(c, s) && Counts(c, s) && Enabled(c, s, l)
    ensures Shaped(c, Apply(c, s, l)) && Slots(c, Apply(c, s, l))
  {
    match l
    case Ask(i) => AskKeepsSlots(c, s, i);
    case Judge(i) => JudgeKeepsSlots(c, s, i);
    case _ =>
  }

  /** Moving a goroutine on keeps the counts when the tokens follow it. */
  lemma CountedAfterMove(stages: seq<Stage>, sem: nat, wg: nat, main: Main, i: nat, x: Stage, sem': nat, wg': nat, main': Main)
    requires Counted(stages, sem, wg, main) && i < |stages| && sem' <= sem
    requires var before, after := InFlight()(stages[i]) + (if main == Holding then 1 else 0),
                                  InFlight()(x) + (if main' == Holding then 1 else 0);
      sem' + before == sem + after
    requires var before, after := Pending()(stages[i]) + (if main == Added || main == Holding then 1 else 0),
                                  Pending()(x) + (if main' == Added || main' == Holding then 1 else 0);
      wg' + before == wg + after
    ensures Counted(stages[i := x], sem', wg', main')
  {
    WeighUpdate(stages, i, x, InFlight());
    WeighUpdate(stages, i, x, Pending());
  }

  lemma CountsKept(c: Config, s: State, l: Label)
    requires c.env.bypass && Shaped(c, s) && Slots(c, s) && Counts(c, s) && Enabled(c, s, l)
    ensures Shaped(c, Apply(c, s, l)) && Counts(c, Apply(c, s, l))
  {
    var s' := Apply(c, s, l);
    match l
    case Spawn => CountedAfterMove(s.stages, s.sem, s.wg, s.main, s.launched, Asking, s'.sem, s'.wg, s'.main);
    case Ask(i) =>
      AskKeepsSlots(c, s, i);
      CountedAfterMove(s.stages, s.sem, s.wg, s.main, i, s'.stages[i], s'.sem, s'.wg, s'.main);
    case Judge(i) =>
      JudgeKeepsSlots(c, s, i);
      CountedAfterMove(s.stages, s.sem, s.wg, s.main, i, Releasing, s'.sem, s'.wg, s'.main);
    case Release(i) => CountedAfterMove(s.stages, s.sem, s.wg, s.main, i, Leaving, s'.sem, s'.wg, s'.main);
    case Leave(i) => CountedAfterMove(s.stages, s.sem, s.wg, s.main, i, Gone, s'.sem, s'.wg, s'.main);
    case _ =>
  }

  /** Once every slot is filled, the scan of the slots is the sequential loop. */
  lemma {:induction false} CollectIsSequential(env: Env, ts: seq<Task>, recs: seq<Option<StatRecord>>, errs: seq<Option<Error>>)
    requires |ts| == |recs| == |errs|
    requires forall i | 0 <= i < |ts| :: Filled(Process(env, ts[i])) == (recs[i], errs[i])
    ensures Collect(recs, errs) == Sequential(env, ts)
  {
    if ts != [] {
      var n := |ts| - 1;
      CollectIsSequential(env, ts[..n], recs[..n], errs[..n]);
      var last := Process(env, ts[n]);
      assert Filled(last) == (recs[n], errs[n]);
      assert FirstErr(errs) == if FirstErr(errs[..n]).Some? then FirstErr(errs[..n]) else errs[n];
      if Collect(recs[..n], errs[..n]).Ok? && last.Ok? {
        assert Collect(recs, errs).value == Collect(recs[..n], errs[..n]).value + [last.value];
      }
    }
  }

  lemma FinishConcludes(c: Config, s: State)
    requires Inv(c, s) && Enabled(c, s, Finish)
    ensures Collect(s.recs, s.errs) == Sequential(c.env, c.tasks)
    ensures forall i | 0 <= i < |c.tasks| :: s.stages[i] == Gone
  {
    forall i | 0 <= i < |c.tasks|
      ensures s.stages[i] == Gone
      ensures Filled(Process(c.env, c.tasks[i])) == (s.recs[i], s.errs[i])
    {
      WeighAtLeast(s.stages, i, Pending());
      assert SlotRight(c.env, c.tasks[i], s.stages[i], s.recs[i], s.errs[i]);
    }
    CollectIsSequential(c.env, c.tasks, s.recs, s.errs);
  }

  lemma StepKeeps(c: Config, s: State, l: Label)
    requires c.env.bypass && Inv(c, s) && Enabled(c, s, l)
    ensures Inv(c, Apply(c, s, l))
  {
    SlotsKept(c, s, l);
    CountsKept(c, s, l);
    if l == Finish {
      FinishConcludes(c, s);
    }
    if l.Ask? { AskKeepsSlots(c, s, l.i); }
    if l.Judge? { JudgeKeepsSlots(c, s, l.i); }
  }

  // ---------- runs ----------

  lemma {:induction false} RunInv(c: Config, r: seq<State>, i: nat)
    requires c.env.bypass && Run(c, r) && i < |r|
    ensures Inv(c, r[i])
  {
    if i == 0 {
      InitInv(c);
    } else {
      RunInv(c, r, i - 1);
      assert Step(c, r[i - 1], r[i - 1 + 1]);
      var l :| Shaped(c, r[i - 1]) && Enabled(c, r[i - 1], l) && r[i] == Apply(c, r[i - 1], l);
      StepKeeps(c, r[i - 1], l);
    }
  }

  /** Until main is done somebody can move: a full semaphore is held by goroutines that can. */
  lemma SomeStepEnabled(c: Config, s: State) returns (l: Label)
    requires Inv(c, s) && !s.main.Finished?
    ensures Enabled(c, s, l)
  {
    if s.main == Holding {
      l := Spawn;
    } else if s.main == Added {
      if s.sem < CONCURRENCY {
        l := Acquire;
      } else {
        var i := WeighPositive(s.stages, InFlight());
        l := MoveOf(c, s, i);
      }
    } else if s.launched < |c.tasks| {
      l := Add;
    } else if s.wg == 0 {
      l := Finish;
    } else {
      var i := WeighPositive(s.stages, Pending());
      l := MoveOf(c, s, i);
    }
  }

  /** A started goroutine that has not returned can always take its next step. */
  lemma MoveOf(c: Config, s: State, i: nat) returns (l: Label)
    requires Inv(c, s) && i < |s.stages| && Pending()(s.stages[i]) > 0
    ensures Enabled(c, s, l)
  {
    WeighAtLeast(s.stages, i, InFlight());
    WeighAtLeast(s.stages, i, Pending());
    l := match s.stages[i]
         case Asking => Ask(i)
         case Judging(_) => Judge(i)
         case Releasing => Release(i)
         case _ => Leave(i);
  }

  // ---------- termination ----------

  function MainFuel(m: Main): int {
    match m
    case Top => 1
    case Added => 0
    case Holding => -1
    case Finished(_) => 0
  }

  function Fuel(c: Config, s: State): int {
    3 * (|c.tasks| - s.launched) + Weigh(s.stages, Remaining()) + MainFuel(s.main)
  }

  lemma FuelDecreases(c: Config, s: State, l: Label)
    requires c.env.bypass && Inv(c, s) && Enabled(c, s, l)
    ensures Fuel(c, Apply(c, s, l)) < Fuel(c, s)
  {
    match l
    case Spawn => WeighUpdate(s.stages, s.launched, Asking, Remaining());
    case Ask(i) =>
      AskKeepsSlots(c, s, i);
      StageFuel(c, s, Asked(c, s, i), i, Asked(c, s, i).stages[i]);
    case Judge(i) =>
      JudgeKeepsSlots(c, s, i);
      StageFuel(c, s, Judged(c, s, i), i, Releasing);
    case Release(i) => StageFuel(c, s, Apply(c, s, l), i, Leaving);
    case Leave(i) => StageFuel(c, s, Apply(c, s, l), i, Gone);
    case _ =>
  }

  /** A goroutine's own step. */
  lemma StageFuel(c: Config, s: State, s': State, i: nat, x: Stage)
    requires i < |s.stages| && s'.stages == s.stages[i := x] && s'.launched == s.launched && s'.main == s.main
    requires Remaining()(x) < Remaining()(s.stages[i])
    ensures Fuel(c, s') < Fuel(c, s)
  {
    WeighUpdate(s.stages, i, x, Remaining());
  }

  /** Every interleaving ends within 7 steps a task and one more. */
  lemma {:induction false} RunBounded(c: Config, r: seq<State>, i: nat)
    requires c.env.bypass && Run(c, r) && i < |r|
    ensures i + Fuel(c, r[i]) <= 7 * |c.tasks| + 1
  {
    if i == 0 {
      WeighConst(|c.tasks|, Unborn, Remaining());
    } else {
      RunBounded(c, r, i - 1);
      RunInv(c, r, i - 1);
      assert Step(c, r[i - 1], r[i - 1 + 1]);
      var l :| Shaped(c, r[i - 1]) && Enabled(c, r[i - 1], l) && r[i] == Apply(c, r[i - 1], l);
      FuelDecreases(c, r[i - 1], l);
    }
  }

  /**
   Phase 2 with the caches bypassed, in every state of every interleaving: at most six tasks are in flight, the
   caches are untouched, some step is possible until main is done, the run is bounded, and main ends with what
   the sequential loop returns.
   */
  lemma PhaseIsCorrect(c: Config, r: seq<State>, i: nat)
    requires c.env.bypass && Run(c, r) && i < |r|
    ensures i <= 7 * |c.tasks| + 1
    ensures Weigh(r[i].stages, InFlight()) <= CONCURRENCY
    ensures r[i].caches == c.caches
    ensures Shaped(c, r[i]) && (!r[i].main.Finished? ==> exists l :: Enabled(c, r[i], l))
    ensures r[i].main.Finished? ==> r[i].main.result == Sequential(c.env, c.tasks)
  {
    RunInv(c, r, i);
    RunBounded(c, r, i);
    FuelNonNegative(c, r[i]);
    if !r[i].main.Finished? {
      var l := SomeStepEnabled(c, r[i]);
    }
  }

  lemma FuelNonNegative(c: Config, s: State)
    requires Inv(c, s)
    ensures Fuel(c, s) >= 0
  {
  }

  // ---------- the scheduler ----------

  /** The step a goroutine can take, if any. */
  function MoveAt(c: Config, s: State, i: nat): seq<Label>
    requires Shaped(c, s) && i < |s.stages|
  {
    match s.stages[i]
    case Asking => [Ask(i)]
    case Judging(_) => [Judge(i)]
    case Releasing => if s.sem > 0 then [Release(i)] else []
    case Leaving => if s.wg > 0 then [Leave(i)] else []
    case _ => []
  }

  function Moves(c: Config, s: State, n: nat): seq<Label>
    requires Shaped(c, s) && n <= |s.stages|
  {
    if n == 0 then [] else Moves(c, s, n - 1) + MoveAt(c, s, n - 1)
  }

  function MainMove(c: Config, s: State): seq<Label> {
    match s.main
    case Top => if s.launched < |c.tasks| then [Add] else if s.launched == |c.tasks| && s.wg == 0 then [Finish] else []
    case Added => if s.sem < CONCURRENCY then [Acquire] else []
    case Holding => if s.launched < |c.tasks| then [Spawn] else []
    case Finished(_) => []
  }

  /** What the scheduler may run next. */
  function Runnable(c: Config, s: State): seq<Label>
    requires Shaped(c, s)
  {
    MainMove(c, s) + Moves(c, s, |s.stages|)
  }

  /** The goroutine that takes a step; main has none. */
  function Mover(l: Label): Option<nat> {
    match l
    case Ask(i) => Some(i)
    case Judge(i) => Some(i)
    case Release(i) => Some(i)
    case Leave(i) => Some(i)
    case _ => None
  }

  lemma {:induction false} MovesAre(c: Config, s: State, n: nat, l: Label)
    requires Shaped(c, s) && n <= |s.stages|
    ensures l in Moves(c, s, n) <==> Mover(l).Some? && Mover(l).value < n && Enabled(c, s, l)
  {
    if n > 0 {
      MovesAre(c, s, n - 1, l);
      assert l in MoveAt(c, s, n - 1) <==> Mover(l) == Some(n - 1) && Enabled(c, s, l);
    }
  }

  /** Exactly the enabled steps. */
  lemma RunnableIs(c: Config, s: State, l: Label)
    requires Shaped(c, s)
    ensures l in Runnable(c, s) <==> Enabled(c, s, l)
  {
    MovesAre(c, s, |s.stages|, l);
    assert l in MainMove(c, s) <==> Mover(l).None? && Enabled(c, s, l);
  }

  /** The second phase: the scheduler picks any enabled step, until main is done. */
  method RunPhase(c: Config) returns (r: Result<seq<StatRecord>, Error>, caches: Caches)
    requires c.env.bypass
    ensures r == Sequential(c.env, c.tasks) && caches == c.caches
  {
    var s := Init(c);
    InitInv(c);
    while !s.main.Finished?
      invariant Inv(c, s)
      decreases Fuel(c, s)
    {
      FuelNonNegative(c, s);
      ghost var some := SomeStepEnabled(c, s);
      RunnableIs(c, s, some);
      var l :| l in Runnable(c, s);
      RunnableIs(c, s, l);
      StepKeeps(c, s, l);
      FuelDecreases(c, s, l);
      s := Apply(c, s, l);
    }
    r, caches := s.main.result, s.caches;
  }

  // ---------- repetitions ----------

  function Renumber(rs: seq<StatRecord>, rep: nat): seq<StatRecord> {
    seq(|rs|, i requires 0 <= i < |rs| => rs[i].(rep := rep))
  }

  /** With a deterministic client and judge every repetition brings the same records, or the same error. */
  lemma {:induction false} RepetitionsAgree(env: Env, ts: seq<Task>, rep: nat)
    ensures Sequential(env, ts).Err? ==> Sequential(env, Relabel(ts, rep)) == Sequential(env, ts)
    ensures Sequential(env, ts).Ok? ==>
              Sequential(env, Relabel(ts, rep)) == Ok(Renumber(Sequential(env, ts).value, rep))
  {
    if ts != [] {
      var n, us := |ts| - 1, Relabel(ts, rep);
      assert us[..|us| - 1] == Relabel(ts[..n], rep);
      RepetitionsAgree(env, ts[..n], rep);
      assert us[n] == ts[n].(rep := rep);
      ProcessAgrees(env, ts[n], rep);
      if Sequential(env, ts).Ok? {
        var before, x := Sequential(env, ts[..n]).value, Process(env, ts[n]).value;
        assert Sequential(env, ts).value == before + [x];
        assert Sequential(env, us) == Ok(Renumber(before, rep) + [x.(rep := rep)]);
        assert Renumber(before + [x], rep) == Renumber(before, rep) + [x.(rep := rep)];
      }
    } else {
      assert Relabel(ts, rep) == [] && Renumber([], rep) == [];
    }
  }

  lemma ProcessAgrees(env: Env, t: Task, rep: nat)
    ensures Process(env, t).Err? ==> Process(env, t.(rep := rep)) == Process(env, t)
    ensures Process(env, t).Ok? ==> Process(env, t.(rep := rep)) == Ok(Process(env, t).value.(rep := rep))
  {
  }

  // ---------- the repetition loop ----------

  /** The records of the repetitions 1, ..., reps of a plan, or the first error. */
  function Repeats(env: Env, ts: seq<Task>, reps: nat): Result<seq<StatRecord>, Error> {
    if reps == 0 then Ok([])
    else
      match Repeats(env, ts, reps - 1)
      case Err(e) => Err(e)
      case Ok(all) =>
        match Sequential(env, Relabel(ts, reps))
        case Err(e) => Err(e)
        case Ok(rs) => Ok(all + rs)
  }

  lemma {:induction false} RepeatsError(env: Env, ts: seq<Task>, k: nat, reps: nat)
    requires k <= reps && Repeats(env, ts, k).Err?
    ensures Repeats(env, ts, reps) == Repeats(env, ts, k)
  {
    if k < reps {
      RepeatsError(env, ts, k, reps - 1);
    }
  }

  /**
   RunStatsMatrix: every repetition makes its strategies, plans, and runs the plan, whatever the scheduler does;
   the first error ends the run, and the caches stay as they were.
   */
  method RunStatsMatrix(norm: Normalizer, env: Env, c: Caches, models: Models, ws: seq<Workload>, reps: nat)
    returns (r: Result<seq<StatRecord>, Error>, c': Caches)
    requires env.bypass
    ensures r == Repeats(env, PlanOf(AllStrategies(norm, models), models, Jobs(ws), 1), reps)
    ensures c' == c
  {
    ghost var plan := PlanOf(AllStrategies(norm, models), models, Jobs(ws), 1);
    var all := [];
    c' := c;
    for k := 0 to reps
      invariant Repeats(env, plan, k) == Ok(all) && c' == c
    {
      var tasks := Plan(norm, models, ws, k + 1);
      PlansIdentical(AllStrategies(norm, models), models, Jobs(ws), 1, k + 1);
      r, c' := RunPhase(Config(env, tasks, c'));
      if r.Err? {
        RepeatsError(env, plan, k + 1, reps);
        return;
      }
      all := all + r.value;
    }
    r := Ok(all);
  }

  function Copies(rs: seq<StatRecord>, reps: nat): seq<StatRecord> {
    if reps == 0 then [] else Copies(rs, reps - 1) + Renumber(rs, reps)
  }

  /** The run fails in its first repetition or not at all, and otherwise holds each repetition's copy of the same records. */
  lemma {:induction false} RepeatsAreCopies(env: Env, ts: seq<Task>, reps: nat)
    ensures Sequential(env, ts).Err? && reps > 0 ==> Repeats(env, ts, reps) == Sequential(env, ts)
    ensures Sequential(env, ts).Ok? ==>
              && Repeats(env, ts, reps) == Ok(Copies(Sequential(env, ts).value, reps))
              && |Copies(Sequential(env, ts).value, reps)| == reps * |ts|
  {
    if reps > 0 {
      RepeatsAreCopies(env, ts, reps - 1);
      RepetitionsAgree(env, ts, reps);
      SequentialLength(env, ts);
      assert reps * |ts| == (reps - 1) * |ts| + |ts|;
    }
  }

  lemma {:induction false} SequentialLength(env: Env, ts: seq<Task>)
    ensures Sequential(env, ts).Ok? ==> |Sequential(env, ts).value| == |ts|
  {
    if ts != [] {
      SequentialLength(env, ts[..|ts| - 1]);
    }
  }

  /** Each record is that of its task: what the task's model answered to its prompt, under the task's names. */
  lemma {:induction false} RecordsAre(env: Env, ts: seq<Task>, i: nat)
    requires Sequential(env, ts).Ok? && i < |ts|
    ensures |Sequential(env, ts).value| == |ts|
    ensures var r, t := Sequential(env, ts).value[i], ts[i];
      && ServeOn(env, t.m, t.p) == Ok(r.served)
      && r.rep == t.rep && r.strategy == t.strategy && r.workload == t.w.name && r.promptID == t.p.id
      && r.modelID == t.m.id && r.isReal == t.m.isReal && (r.reroute <==> r.modelID != t.w.premiumModel)
  {
    SequentialLength(env, ts);
    if i < |ts| - 1 { RecordsAre(env, ts[..|ts| - 1], i); }
  }

  /** An error is that of the first task that cannot be served. */
  lemma {:induction false} FirstFailure(env: Env, ts: seq<Task>) returns (i: nat)
    requires Sequential(env, ts).Err?
    ensures i < |ts| && ServeOn(env, ts[i].m, ts[i].p) == Err(Sequential(env, ts).error)
    ensures forall k | 0 <= k < i :: ServeOn(env, ts[k].m, ts[k].p).Ok?
  {
    var init := ts[..|ts| - 1];
    if Sequential(env, init).Err? {
      i := FirstFailure(env, init);
    } else {
      i := |init|;
      forall k | 0 <= k < i ensures ServeOn(env, ts[k].m, ts[k].p).Ok? {
        RecordsAre(env, init, k);
        assert init[k] == ts[k];
      }
    }
  }
}
