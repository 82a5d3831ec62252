/**
 Phase 1 of RunStatsMatrix (experimentation/internal/runner/runner_rqs.go): every repetition routes all
 workloads through a fresh set of strategies, sequentially, and keeps the served decisions as tasks.
 */
module StatsPlan {
  import opened Catalog
  import opened Perms
  import opened Router
  import opened RoutingProperties
  import opened Runner
  import opened Strategies
  import opened Sums
  import opened Workloads

  /** A routing decision awaiting its call. */
  datatype Task = Task(w: Workload, p: Prompt, strategy: string, m: Model, rep: nat)

  function JobRequest(j: Job): Request {
    RequestFor(j.w, j.p, GLOBAL, j.w.monthlyBudgetEUR, 0.0)
  }

  /** A strategy whose choice may depend on how many requests it has served. */
  type Counting = (nat, Request) -> Decision

  /** The tasks after one more decision: a blocked one is dropped. */
  function Planned(ts: seq<Task>, d: Decision, name: string, models: Models, j: Job, rep: nat): seq<Task> {
    if d.blocked then ts else ts + [Task(j.w, j.p, name, Lookup(models, d.modelID), rep)]
  }

  /** The tasks of one strategy over the jobs, starting from a strategy that has served some requests before. */
  function TasksFrom(start: nat, name: string, choose: Counting, models: Models, jobs: seq<Job>, rep: nat): seq<Task> {
    if jobs == [] then []
    else
      var before, j := TasksFrom(start, name, choose, models, jobs[..|jobs| - 1], rep), jobs[|jobs| - 1];
      Planned(before, choose(start + |before|, JobRequest(j)), name, models, j, rep)
  }

  datatype Named = Named(name: string, choose: Counting)

  function RoundRobinChoice(norm: Normalizer, models: Models): Counting {
    (n: nat, ctx: Request) => ChooseRoundRobin(n, norm, ctx, models)
  }

  /** The seven strategies in order, each as its choice after n served requests. */
  function AllStrategies(norm: Normalizer, models: Models): seq<Named> {
    [Named("B1-premium-static", (n, ctx) => ChoosePremium(norm, ctx, models)),
     Named("B2-round-robin", RoundRobinChoice(norm, models)),
     Named("B3-least-cost", (n, ctx) => ChooseLeastCost(norm, ctx, models)),
     Named("B4-static-policy", (n, ctx) => ChooseStatic(norm, ctx, models)),
     Named("B5-budget-hard-block", (n, ctx) => ChooseHardBlock(norm, ctx, models)),
     Named("B7-difficulty-router", (n, ctx) => ChooseDifficulty(norm, ctx, models)),
     Named("B6-ours", (n, ctx) => ChooseOurs(DEFAULT_WEIGHTS, norm, ctx, models))]
  }

  /** The tasks of some strategies that have served nothing, one after the other. */
  function PlanOf(ss: seq<Named>, models: Models, jobs: seq<Job>, rep: nat): seq<Task> {
    if ss == [] then []
    else
      var s := ss[|ss| - 1];
      PlanOf(ss[..|ss| - 1], models, jobs, rep) + TasksFrom(0, s.name, s.choose, models, jobs, rep)
  }

  // ---------- the strategy objects ----------

  /** What All() makes: strategies without state, and a reference to a round robin. */
  datatype StrategyObject = Stateless(name: string, choose: Strategy) | Rotating(name: string, rr: RoundRobin)

  function Turn(spec: Named, n: nat, ctx: Request): Decision {
    spec.choose(n, ctx)
  }

  /** The object decides as the specification says. */
  ghost predicate Implements(o: StrategyObject, spec: Named, norm: Normalizer, models: Models) {
    && o.name == spec.name
    && match o
       case Stateless(_, choose) => forall n, ctx {:trigger Turn(spec, n, ctx)} :: Turn(spec, n, ctx) == choose(ctx)
       case Rotating(_, _) =>
         forall n, ctx {:trigger Turn(spec, n, ctx)} :: Turn(spec, n, ctx) == ChooseRoundRobin(n, norm, ctx, models)
  }

  /** The round robin among the objects, if this is it, has served n requests. */
  ghost predicate ServedSoFar(o: StrategyObject, n: nat)
    reads if o.Rotating? then {o.rr} else {}
  {
    o.Rotating? ==> o.rr.n == n
  }

  /** All(): fresh objects, the round robin at its first candidate. */
  method All(norm: Normalizer, models: Models) returns (os: seq<StrategyObject>)
    ensures var specs := AllStrategies(norm, models);
      |os| == |specs| && forall k | 0 <= k < |os| :: Implements(os[k], specs[k], norm, models)
    ensures forall k | 0 <= k < |os| :: os[k].Rotating? <==> k == 1
    ensures fresh(os[1].rr) && os[1].rr.n == 0
  {
    var rr := new RoundRobin();
    os := [Stateless("B1-premium-static", ctx => ChoosePremium(norm, ctx, models)),
           Rotating("B2-round-robin", rr),
           Stateless("B3-least-cost", ctx => ChooseLeastCost(norm, ctx, models)),
           Stateless("B4-static-policy", ctx => ChooseStatic(norm, ctx, models)),
           Stateless("B5-budget-hard-block", ctx => ChooseHardBlock(norm, ctx, models)),
           Stateless("B7-difficulty-router", ctx => ChooseDifficulty(norm, ctx, models)),
           Stateless("B6-ours", ctx => ChooseOurs(DEFAULT_WEIGHTS, norm, ctx, models))];
  }

  /** strat.Choose(rctx, e.Models). */
  method Choose(o: StrategyObject, norm: Normalizer, ctx: Request, models: Models, ghost spec: Named, ghost n: nat)
    returns (d: Decision)
    requires Implements(o, spec, norm, models) && ServedSoFar(o, n)
    modifies if o.Rotating? then {o.rr} else {}
    ensures d == Turn(spec, n, ctx)
    ensures ServedSoFar(o, if d.blocked then n else n + 1)
  {
    match o
    case Stateless(_, choose) => d := choose(ctx);
    case Rotating(_, rr) => d := rr.Choose(norm, ctx, models);
  }

  /** The job at k, after the jobs before it. */
  lemma TasksNext(start: nat, spec: Named, models: Models, before: seq<Job>, here: seq<Job>, k: nat, rep: nat, ts: seq<Task>)
    requires k < |here| && ts == TasksFrom(start, spec.name, spec.choose, models, before + here[..k], rep)
    ensures TasksFrom(start, spec.name, spec.choose, models, before + here[..k + 1], rep)
         == Planned(ts, spec.choose(start + |ts|, JobRequest(here[k])), spec.name, models, here[k], rep)
  {
    var next := before + here[..k + 1];
    assert next[..|next| - 1] == before + here[..k];
  }

  // ---------- the planning loops ----------

  /** The body of the prompt loop. */
  method PlanJob(o: StrategyObject, norm: Normalizer, models: Models, ts: seq<Task>, j: Job, rep: nat,
                 ghost spec: Named, ghost start: nat)
    returns (tasks: seq<Task>)
    requires Implements(o, spec, norm, models) && ServedSoFar(o, start + |ts|)
    modifies if o.Rotating? then {o.rr} else {}
    ensures tasks == Planned(ts, spec.choose(start + |ts|, JobRequest(j)), spec.name, models, j, rep)
    ensures ServedSoFar(o, start + |tasks|)
  {
    tasks := ts;
    var dec := Choose(o, norm, JobRequest(j), models, spec, start + |ts|);
    if !dec.blocked {
      tasks := tasks + [Task(j.w, j.p, o.name, Lookup(models, dec.modelID), rep)];
    }
  }

  /** The inner loop: one workload's prompts, after the jobs of the workloads before it. */
  method PlanWorkload(o: StrategyObject, norm: Normalizer, models: Models, ts: seq<Task>, w: Workload, rep: nat,
                      ghost spec: Named, ghost start: nat, ghost before: seq<Job>)
    returns (tasks: seq<Task>)
    requires Implements(o, spec, norm, models) && ServedSoFar(o, start + |ts|)
    requires ts == TasksFrom(start, spec.name, spec.choose, models, before, rep)
    modifies if o.Rotating? then {o.rr} else {}
    ensures tasks == TasksFrom(start, spec.name, spec.choose, models, before + JobsOf(w, w.prompts), rep)
    ensures ServedSoFar(o, start + |tasks|)
  {
    tasks := ts;
    ghost var here := JobsOf(w, w.prompts);
    assert before + here[..0] == before;
    for k := 0 to |w.prompts|
      invariant tasks == TasksFrom(start, spec.name, spec.choose, models, before + here[..k], rep)
      invariant ServedSoFar(o, start + |tasks|)
    {
      TasksNext(start, spec, models, before, here, k, rep, tasks);
      tasks := PlanJob(o, norm, models, tasks, Job(w, w.prompts[k]), rep, spec, start);
    }
    assert here[..|w.prompts|] == here;
  }

  /** One strategy over all workloads. */
  method PlanStrategy(o: StrategyObject, norm: Normalizer, models: Models, ws: seq<Workload>, rep: nat,
                      ghost spec: Named, ghost start: nat)
    returns (tasks: seq<Task>)
    requires Implements(o, spec, norm, models) && ServedSoFar(o, start)
    modifies if o.Rotating? then {o.rr} else {}
    ensures tasks == TasksFrom(start, spec.name, spec.choose, models, Jobs(ws), rep)
    ensures ServedSoFar(o, start + |tasks|)
  {
    tasks := [];
    for i := 0 to |ws|
      invariant tasks == TasksFrom(start, spec.name, spec.choose, models, Jobs(ws[..i]), rep)
      invariant ServedSoFar(o, start + |tasks|)
    {
      assert ws[..i + 1][..i] == ws[..i];
      tasks := PlanWorkload(o, norm, models, tasks, ws[i], rep, spec, start, Jobs(ws[..i]));
    }
    assert ws[..|ws|] == ws;
  }

  lemma PlanNext(specs: seq<Named>, models: Models, jobs: seq<Job>, rep: nat, k: nat)
    requires k < |specs|
    ensures PlanOf(specs[..k + 1], models, jobs, rep)
         == PlanOf(specs[..k], models, jobs, rep) + TasksFrom(0, specs[k].name, specs[k].choose, models, jobs, rep)
  {
    assert specs[..k + 1][..k] == specs[..k];
  }

  /** The strategy loop of one repetition over given objects, of which only the second may rotate. */
  method PlanObjects(os: seq<StrategyObject>, norm: Normalizer, models: Models, ws: seq<Workload>, rep: nat,
                     ghost specs: seq<Named>)
    returns (tasks: seq<Task>)
    requires |os| == |specs| && forall k | 0 <= k < |os| :: Implements(os[k], specs[k], norm, models)
    requires forall k | 0 <= k < |os| :: os[k].Rotating? <==> k == 1
    requires |os| > 1 && os[1].rr.n == 0
    modifies os[1].rr
    ensures tasks == PlanOf(specs, models, Jobs(ws), rep)
  {
    tasks := [];
    for k := 0 to |os|
      invariant tasks == PlanOf(specs[..k], models, Jobs(ws), rep)
      invariant k <= 1 ==> os[1].rr.n == 0
    {
      PlanNext(specs, models, Jobs(ws), rep, k);
      var more := PlanStrategy(os[k], norm, models, ws, rep, specs[k], 0);
      tasks := tasks + more;
    }
    assert specs[..|os|] == specs;
  }

  /** Phase 1 of one repetition: the strategies are made inside it. */
  method Plan(norm: Normalizer, models: Models, ws: seq<Workload>, rep: nat) returns (tasks: seq<Task>)
    ensures tasks == PlanOf(AllStrategies(norm, models), models, Jobs(ws), rep)
  {
    var os := All(norm, models);
    tasks := PlanObjects(os, norm, models, ws, rep, AllStrategies(norm, models));
  }

  // ---------- repetitions ----------

  /** The same tasks under another repetition's number. */
  function Relabel(ts: seq<Task>, rep: nat): seq<Task> {
    seq(|ts|, i requires 0 <= i < |ts| => ts[i].(rep := rep))
  }

  lemma {:induction false} TasksRelabel(start: nat, name: string, choose: Counting, models: Models, jobs: seq<Job>,
                                        rep: nat, rep': nat)
    ensures TasksFrom(start, name, choose, models, jobs, rep')
         == Relabel(TasksFrom(start, name, choose, models, jobs, rep), rep')
  {
    if jobs != [] {
      TasksRelabel(start, name, choose, models, jobs[..|jobs| - 1], rep, rep');
    }
  }

  /** The plans of two repetitions differ in the repetition's number only. */
  lemma {:induction false} PlansIdentical(ss: seq<Named>, models: Models, jobs: seq<Job>, rep: nat, rep': nat)
    ensures PlanOf(ss, models, jobs, rep') == Relabel(PlanOf(ss, models, jobs, rep), rep')
  {
    if ss != [] {
      var s := ss[|ss| - 1];
      PlansIdentical(ss[..|ss| - 1], models, jobs, rep, rep');
      TasksRelabel(0, s.name, s.choose, models, jobs, rep, rep');
    }
  }

  // ---------- a round robin carried over ----------

  /** The allowed models of every job are listed once. */
  ghost predicate AllowedOnce(jobs: seq<Job>) {
    forall j | j in jobs :: Distinct(j.w.allowedModels)
  }

  lemma {:induction false} CompliantDistinct(norm: Normalizer, ctx: Request, models: Models, ids: seq<string>)
    requires Keyed(models) && Distinct(ids)
    ensures Distinct(Compliant(norm, ctx, models, ids))
  {
    if ids != [] {
      CompliantDistinct(norm, ctx, models, ids[1..]);
      forall m | m in Compliant(norm, ctx, models, ids[1..]) ensures m.id != ids[0] {
        CompliantMember(norm, ctx, models, ids[1..], m);
      }
    }
  }

  lemma CandidatesDistinct(norm: Normalizer, ctx: Request, models: Models)
    requires Keyed(models) && Distinct(ctx.allowedModels)
    ensures Distinct(Candidates(norm, ctx, models))
  {
    CompliantDistinct(norm, ctx, models, ctx.allowedModels);
    DistinctPerm(Compliant(norm, ctx, models, ctx.allowedModels), Candidates(norm, ctx, models));
  }

  /** A shift by n keeps the remainder exactly when n is a multiple. */
  lemma ShiftedTurn(n: nat, t: nat, c: nat)
    requires c > 0
    ensures (n + t) % c == t % c <==> n % c == 0
  {
    var q, r, u, v := n / c, n % c, t / c, t % c;
    assert n + t == c * q + c * u + (r + v) && c * q + c * u == c * (q + u);
    if r + v < c {
      ModIs(n + t, c, q + u, r + v);
    } else {
      assert c * (q + u + 1) == c * (q + u) + c;
      ModIs(n + t, c, q + u + 1, r + v - c);
    }
  }

  /** Starting n requests further on serves the same model exactly when the candidates' number divides n. */
  lemma ShiftedChoice(norm: Normalizer, ctx: Request, models: Models, n: nat, t: nat)
    requires Keyed(models) && Distinct(ctx.allowedModels) && Candidates(norm, ctx, models) != []
    ensures !ChooseRoundRobin(n + t, norm, ctx, models).blocked && !ChooseRoundRobin(t, norm, ctx, models).blocked
    ensures Lookup(models, ChooseRoundRobin(n + t, norm, ctx, models).modelID)
         == Lookup(models, ChooseRoundRobin(t, norm, ctx, models).modelID)
        <==> n % |Candidates(norm, ctx, models)| == 0
  {
    var ok := Candidates(norm, ctx, models);
    var i, j := (n + t) % |ok|, t % |ok|;
    CandidatesDistinct(norm, ctx, models);
    CandidateMember(norm, ctx, models, ok[i]);
    CandidateMember(norm, ctx, models, ok[j]);
    ShiftedTurn(n, t, |ok|);
    assert ok[i] == ok[j] <==> i == j;
  }

  /** The plan of a round robin that had served n requests. */
  function RoundRobinPlan(n: nat, norm: Normalizer, models: Models, jobs: seq<Job>, rep: nat): seq<Task> {
    TasksFrom(n, "B2-round-robin", RoundRobinChoice(norm, models), models, jobs, rep)
  }

  /** Two decisions block alike, and serve the same model exactly when alike says so. */
  predicate AlikeAs(models: Models, d: Decision, d': Decision, alike: bool) {
    && d.blocked == d'.blocked
    && (d.blocked ==> alike)
    && (!d.blocked ==> (Lookup(models, d.modelID) == Lookup(models, d'.modelID) <==> alike))
  }

  /** At every turn, the choice n requests further on compares to the choice as alike says. */
  ghost predicate ShiftsAlike(choose: Counting, models: Models, j: Job, n: nat, alike: bool) {
    forall t: nat :: AlikeAs(models, choose(n + t, JobRequest(j)), choose(t, JobRequest(j)), alike)
  }

  /** Plans started n requests apart coincide exactly when every job's choice is alike. */
  lemma {:induction false} PlansShifted(name: string, choose: Counting, models: Models, jobs: seq<Job>, rep: nat, n: nat,
                                        alike: Job -> bool)
    requires forall j | j in jobs :: ShiftsAlike(choose, models, j, n, alike(j))
    ensures |TasksFrom(n, name, choose, models, jobs, rep)| == |TasksFrom(0, name, choose, models, jobs, rep)|
    ensures TasksFrom(n, name, choose, models, jobs, rep) == TasksFrom(0, name, choose, models, jobs, rep)
        <==> forall j | j in jobs :: alike(j)
  {
    if jobs != [] {
      var init, j := jobs[..|jobs| - 1], jobs[|jobs| - 1];
      PlansShifted(name, choose, models, init, rep, n, alike);
      var a, b := TasksFrom(n, name, choose, models, init, rep), TasksFrom(0, name, choose, models, init, rep);
      assert jobs == init + [j] && ShiftsAlike(choose, models, j, n, alike(j));
      var d, d' := choose(n + |b|, JobRequest(j)), choose(|b|, JobRequest(j));
      assert AlikeAs(models, d, d', alike(j));
      LastTasks(a, b, Task(j.w, j.p, name, Lookup(models, d.modelID), rep),
                Task(j.w, j.p, name, Lookup(models, d'.modelID), rep));
      assert (forall i | i in jobs :: alike(i)) <==> (forall i | i in init :: alike(i)) && alike(j);
    }
  }

  lemma LastTasks(a: seq<Task>, b: seq<Task>, x: Task, y: Task)
    requires |a| == |b|
    ensures a + [x] == b + [y] <==> a == b && x == y
  {
    if a + [x] == b + [y] {
      assert (a + [x])[..|a|] == a && (b + [y])[..|b|] == b;
      assert (a + [x])[|a|] == x && (b + [y])[|b|] == y;
    }
  }

  /** The number of candidates of a job, if any, divides n. */
  predicate TurnDivides(norm: Normalizer, models: Models, n: nat, j: Job) {
    var ok := Candidates(norm, JobRequest(j), models);
    ok != [] ==> n % |ok| == 0
  }

  lemma RoundRobinAlike(norm: Normalizer, models: Models, j: Job, n: nat, t: nat, d: Decision, d': Decision)
    requires Keyed(models) && Distinct(j.w.allowedModels)
    requires d == ChooseRoundRobin(n + t, norm, JobRequest(j), models)
    requires d' == ChooseRoundRobin(t, norm, JobRequest(j), models)
    ensures AlikeAs(models, d, d', TurnDivides(norm, models, n, j))
  {
    if Candidates(norm, JobRequest(j), models) != [] {
      ShiftedChoice(norm, JobRequest(j), models, n, t);
    }
  }

  lemma RoundRobinTurn(norm: Normalizer, models: Models, n: nat, ctx: Request)
    ensures RoundRobinChoice(norm, models)(n, ctx) == ChooseRoundRobin(n, norm, ctx, models)
  {
  }

  lemma RoundRobinShifts(norm: Normalizer, models: Models, j: Job, n: nat, choose: Counting)
    requires Keyed(models) && Distinct(j.w.allowedModels)
    requires forall t: nat {:trigger choose(t, JobRequest(j))} ::
               choose(t, JobRequest(j)) == ChooseRoundRobin(t, norm, JobRequest(j), models)
    ensures ShiftsAlike(choose, models, j, n, TurnDivides(norm, models, n, j))
  {
    forall t: nat
      ensures AlikeAs(models, choose(n + t, JobRequest(j)), choose(t, JobRequest(j)), TurnDivides(norm, models, n, j))
    {
      RoundRobinAlike(norm, models, j, n, t, choose(n + t, JobRequest(j)), choose(t, JobRequest(j)));
    }
  }

  /** Where a choice is the same at every turn, an earlier start changes nothing, whatever the allowed lists repeat. */
  lemma DividingTurn(norm: Normalizer, models: Models, j: Job, n: nat, t: nat)
    requires TurnDivides(norm, models, n, j)
    ensures ChooseRoundRobin(n + t, norm, JobRequest(j), models) == ChooseRoundRobin(t, norm, JobRequest(j), models)
  {
    var ok := Candidates(norm, JobRequest(j), models);
    if ok != [] {
      ShiftedTurn(n, t, |ok|);
    }
  }

  lemma DividingShifts(norm: Normalizer, models: Models, j: Job, n: nat, choose: Counting)
    requires TurnDivides(norm, models, n, j)
    requires forall t: nat {:trigger choose(t, JobRequest(j))} ::
               choose(t, JobRequest(j)) == ChooseRoundRobin(t, norm, JobRequest(j), models)
    ensures ShiftsAlike(choose, models, j, n, true)
  {
    hide ChooseRoundRobin;
    forall t: nat ensures AlikeAs(models, choose(n + t, JobRequest(j)), choose(t, JobRequest(j)), true) {
      DividingTurn(norm, models, j, n, t);
    }
  }

  lemma RoundRobinTurns(norm: Normalizer, models: Models, j: Job)
    ensures forall t: nat :: RoundRobinChoice(norm, models)(t, JobRequest(j)) == ChooseRoundRobin(t, norm, JobRequest(j), models)
  {
    forall t: nat
      ensures RoundRobinChoice(norm, models)(t, JobRequest(j)) == ChooseRoundRobin(t, norm, JobRequest(j), models)
    {
      RoundRobinTurn(norm, models, t, JobRequest(j));
    }
  }

  /** A round robin carried over after n served requests plans as a new one when every number of candidates divides n. */
  lemma CarriedPlansAgree(norm: Normalizer, models: Models, jobs: seq<Job>, rep: nat, n: nat)
    requires forall j | j in jobs :: TurnDivides(norm, models, n, j)
    ensures RoundRobinPlan(n, norm, models, jobs, rep) == RoundRobinPlan(0, norm, models, jobs, rep)
  {
    forall j | j in jobs ensures ShiftsAlike(RoundRobinChoice(norm, models), models, j, n, true) {
      RoundRobinTurns(norm, models, j);
      DividingShifts(norm, models, j, n, RoundRobinChoice(norm, models));
    }
    PlansShifted("B2-round-robin", RoundRobinChoice(norm, models), models, jobs, rep, n, j => true);
  }

  lemma CarriedPlansDiffer(norm: Normalizer, models: Models, jobs: seq<Job>, rep: nat, n: nat)
    requires Keyed(models) && AllowedOnce(jobs)
    ensures RoundRobinPlan(n, norm, models, jobs, rep) == RoundRobinPlan(0, norm, models, jobs, rep)
        <==> forall j | j in jobs :: TurnDivides(norm, models, n, j)
  {
    var alike := (j: Job) => TurnDivides(norm, models, n, j);
    forall j | j in jobs ensures ShiftsAlike(RoundRobinChoice(norm, models), models, j, n, alike(j)) {
      RoundRobinTurns(norm, models, j);
      RoundRobinShifts(norm, models, j, n, RoundRobinChoice(norm, models));
    }
    PlansShifted("B2-round-robin", RoundRobinChoice(norm, models), models, jobs, rep, n, alike);
    assert (forall j | j in jobs :: TurnDivides(norm, models, n, j)) <==> forall j | j in jobs :: alike(j);
  }

  /**
   A round robin carried over after n served requests plans as a new one when the number of candidates of every job
   it serves divides n, and, unless an allowed list repeats a model, only then. This is why every repetition makes
   its own.
   */
  lemma CarriedPlansAlike(norm: Normalizer, models: Models, jobs: seq<Job>, rep: nat, n: nat)
    requires Keyed(models)
    ensures var same := RoundRobinPlan(n, norm, models, jobs, rep) == RoundRobinPlan(0, norm, models, jobs, rep);
      && ((forall j | j in jobs :: TurnDivides(norm, models, n, j)) ==> same)
      && (AllowedOnce(jobs) && same ==> forall j | j in jobs :: TurnDivides(norm, models, n, j))
  {
    if forall j | j in jobs :: TurnDivides(norm, models, n, j) {
      CarriedPlansAgree(norm, models, jobs, rep, n);
    } else if AllowedOnce(jobs) {
      CarriedPlansDiffer(norm, models, jobs, rep, n);
    }
  }

  /** So the second repetition of one kept object plans as the first when the tasks of the first divide evenly. */
  lemma KeptRoundRobinRepeats(norm: Normalizer, models: Models, jobs: seq<Job>, rep: nat)
    requires Keyed(models)
    ensures var first := RoundRobinPlan(0, norm, models, jobs, rep);
      var same := RoundRobinPlan(|first|, norm, models, jobs, rep + 1) == Relabel(first, rep + 1);
      && ((forall j | j in jobs :: TurnDivides(norm, models, |first|, j)) ==> same)
      && (AllowedOnce(jobs) && same ==> forall j | j in jobs :: TurnDivides(norm, models, |first|, j))
  {
    var first := RoundRobinPlan(0, norm, models, jobs, rep);
    CarriedPlansAlike(norm, models, jobs, rep + 1, |first|);
    TasksRelabel(0, "B2-round-robin", RoundRobinChoice(norm, models), models, jobs, rep, rep + 1);
  }

  /** A witness: one prompt, two candidates. The first repetition is served by a, the second would be by b. */
  lemma CarriedRoundRobinDiffers(norm: Normalizer, p: Prompt, rep: nat)
    ensures var jobs := [Job(Workload("W", "", "", false, 0.0, "p", ["a", "b"], 0.0, [p]), p)];
      RoundRobinPlan(1, norm, TightModels(), jobs, rep) != RoundRobinPlan(0, norm, TightModels(), jobs, rep)
  {
    var j := Job(Workload("W", "", "", false, 0.0, "p", ["a", "b"], 0.0, [p]), p);
    OneDoesNotDivide(norm, j);
    TightKeyed();
    JobDiffers(norm, TightModels(), j, rep);
  }

  lemma JobDiffers(norm: Normalizer, models: Models, j: Job, rep: nat)
    requires Keyed(models) && Distinct(j.w.allowedModels) && !TurnDivides(norm, models, 1, j)
    ensures RoundRobinPlan(1, norm, models, [j], rep) != RoundRobinPlan(0, norm, models, [j], rep)
  {
    CarriedPlansDiffer(norm, models, [j], rep, 1);
    assert j in [j];
  }

  lemma TightKeyed()
    ensures Keyed(TightModels())
  {
  }

  lemma OneDoesNotDivide(norm: Normalizer, j: Job)
    requires j.w.allowedModels == ["a", "b"]
    ensures !TurnDivides(norm, TightModels(), 1, j)
  {
    TwoCandidates(norm, j);
  }

  lemma TwoCandidates(norm: Normalizer, j: Job)
    requires j.w.allowedModels == ["a", "b"]
    ensures |Candidates(norm, JobRequest(j), TightModels())| == 2
  {
    var ctx, ms, ctx' := JobRequest(j), TightModels(), TightRequest(0.0);
    TightCandidates(norm, 0.0);
    if ctx.sensitive == ctx'.sensitive {
      CompliantSame(norm, ctx', ctx, ms, ["a", "b"]);
    } else {
      assert !Violates(norm, ms["a"], GLOBAL, true) && !Violates(norm, ms["b"], GLOBAL, true);
      assert ["a", "b"][1..] == ["b"] && ["b"][1..] == [];
      assert Compliant(norm, ctx, ms, ["b"]) == [ms["b"]];
      assert Compliant(norm, ctx, ms, ["a", "b"]) == [ms["a"], ms["b"]];
      PermFacts(Candidates(norm, ctx, ms), [ms["a"], ms["b"]]);
    }
  }

  // ---------- what a plan contains ----------

  /** Every task is for a job, and a strategy has at most one a job. */
  lemma {:induction false} TasksAreJobs(start: nat, name: string, choose: Counting, models: Models, jobs: seq<Job>, rep: nat)
    ensures |TasksFrom(start, name, choose, models, jobs, rep)| <= |jobs|
    ensures forall t | t in TasksFrom(start, name, choose, models, jobs, rep) ::
              Job(t.w, t.p) in jobs && t.strategy == name && t.rep == rep
  {
    if jobs != [] {
      TasksAreJobs(start, name, choose, models, jobs[..|jobs| - 1], rep);
    }
  }

  lemma OneRowMore(n: nat, k: nat)
    ensures (n + 1) * k == n * k + k
  {
  }

  /** A plan has at most one task a strategy and job ... */
  lemma {:induction false} PlanSize(ss: seq<Named>, models: Models, jobs: seq<Job>, rep: nat)
    ensures |PlanOf(ss, models, jobs, rep)| <= |ss| * |jobs|
  {
    if ss != [] {
      var s := ss[|ss| - 1];
      PlanSize(ss[..|ss| - 1], models, jobs, rep);
      TasksAreJobs(0, s.name, s.choose, models, jobs, rep);
      OneRowMore(|ss| - 1, |jobs|);
    }
  }

  predicate TaskOf(t: Task, names: seq<string>, jobs: seq<Job>, rep: nat) {
    Job(t.w, t.p) in jobs && t.rep == rep && t.strategy in names
  }

  function Names(ss: seq<Named>): seq<string> {
    seq(|ss|, i requires 0 <= i < |ss| => ss[i].name)
  }

  /** ... each for one of the strategies and jobs. */
  lemma {:induction false} PlanIsOfJobs(ss: seq<Named>, models: Models, jobs: seq<Job>, rep: nat)
    ensures forall t | t in PlanOf(ss, models, jobs, rep) :: TaskOf(t, Names(ss), jobs, rep)
  {
    if ss != [] {
      var init, s := ss[..|ss| - 1], ss[|ss| - 1];
      PlanIsOfJobs(init, models, jobs, rep);
      TasksAreJobs(0, s.name, s.choose, models, jobs, rep);
      assert Names(ss) == Names(init) + [s.name];
    }
  }

  // ---------- what is planned ----------

  /** The k-th task is for a job the strategy serves as its k-th request, and for the model it chooses there. */
  lemma {:induction false} TaskIs(start: nat, name: string, choose: Counting, models: Models, jobs: seq<Job>, rep: nat, k: nat)
    returns (i: nat)
    requires k < |TasksFrom(start, name, choose, models, jobs, rep)|
    ensures i < |jobs|
    ensures var t, d := TasksFrom(start, name, choose, models, jobs, rep)[k], choose(start + k, JobRequest(jobs[i]));
      !d.blocked && t == Task(jobs[i].w, jobs[i].p, name, Lookup(models, d.modelID), rep)
  {
    var init := jobs[..|jobs| - 1];
    if k < |TasksFrom(start, name, choose, models, init, rep)| {
      i := TaskIs(start, name, choose, models, init, rep, k);
      assert init[i] == jobs[i];
    } else {
      i := |init|;
    }
  }

  function ServesAt(choose: Counting): Job -> bool {
    j => !choose(0, JobRequest(j)).blocked
  }

  /** A strategy without state plans one task for each job it does not block, and none for the others. */
  lemma {:induction false} OneTaskEach(name: string, choose: Counting, models: Models, jobs: seq<Job>, rep: nat)
    requires forall n, ctx {:trigger choose(n, ctx)} :: choose(n, ctx) == choose(0, ctx)
    ensures var ts := TasksFrom(0, name, choose, models, jobs, rep);
      && |ts| == CountIf(jobs, ServesAt(choose))
      && forall j | j in jobs && ServesAt(choose)(j) ::
           Task(j.w, j.p, name, Lookup(models, choose(0, JobRequest(j)).modelID), rep) in ts
  {
    if jobs != [] {
      OneTaskEach(name, choose, models, jobs[..|jobs| - 1], rep);
      assert forall j | j in jobs :: j in jobs[..|jobs| - 1] || j == jobs[|jobs| - 1];
    }
  }
}
