/**
 What the budget experiment shows, policy by policy, and its agreement with the replay of the same budgets
 from recorded costs (budget_threshold_sensitivity in experimentation/scripts/sensitivity_analysis.py).
 */
module BudgetProperties {
  import opened CacheProperties
  import opened Catalog
  import opened Engine
  import opened Router
  import opened RoutingProperties
  import opened Runner
  import opened Strategies
  import opened Workloads
  import opened Wrappers

  // ---------- the experiment without caches ----------

  /** One prompt more. */
  function UncachedStep(choose: Strategy, s: Setting, w: Workload, budget: real, t: Spend, p: Prompt): Result<Spend, Error> {
    var d := choose(RequestFor(w, p, GLOBAL, budget, t.used));
    if d.blocked then Ok(t.(blocked := t.blocked + 1))
    else
      match ServeOn(s.env, Lookup(s.models, d.modelID), p)
      case Err(e) => Err(e)
      case Ok(x) => Ok(Spend(t.used + x.cost, t.served + 1, t.blocked, t.qualities + [NormQuality(x.quality)]))
  }

  /** The spend after the prompts ps under a policy, or the first call error. */
  function SpendOn(choose: Strategy, s: Setting, w: Workload, budget: real, ps: seq<Prompt>): Result<Spend, Error> {
    if ps == [] then Ok(Spend(0.0, 0, 0, []))
    else
      match SpendOn(choose, s, w, budget, ps[..|ps| - 1])
      case Err(e) => Err(e)
      case Ok(t) => UncachedStep(choose, s, w, budget, t, ps[|ps| - 1])
  }

  /** The cost of the premium model's answers to the prompts, or the first call error. */
  function PremiumTotal(s: Setting, w: Workload, ps: seq<Prompt>): Result<real, Error> {
    if ps == [] then Ok(0.0)
    else
      match PremiumTotal(s, w, ps[..|ps| - 1])
      case Err(e) => Err(e)
      case Ok(t) =>
        var pm := Lookup(s.models, w.premiumModel);
        match Answer(s.env, pm, ps[|ps| - 1])
        case Err(e) => Err(e)
        case Ok(r) => Ok(t + TokenCost(pm, r.usage.inputTokens, r.usage.outputTokens))
  }

  /** The row of every policy, or the error of the first policy that has one. */
  ghost predicate BudgetRowsOf(pols: seq<Strategy>, s: Setting, w: Workload, budget: real,
                               r: Result<seq<BudgetRow>, Error>)
  {
    match r
    case Ok(rows) =>
      |rows| == |pols| && forall k | 0 <= k < |pols| ::
        && SpendOn(pols[k], s, w, budget, w.prompts) == Ok(rows[k].spend)
        && rows[k].overrun == Overrun(rows[k].spend.used, budget)
    case Err(e) =>
      exists k | 0 <= k < |pols| ::
        && SpendOn(pols[k], s, w, budget, w.prompts) == Err(e)
        && forall j | 0 <= j < k :: SpendOn(pols[j], s, w, budget, w.prompts).Ok?
  }

  /** The catalog, the premium model and the prompts of the run are in the universe of the caches. */
  ghost predicate Covers(u: Universe, models: Models, w: Workload) {
    && (forall id | id in models :: models[id] in u.models)
    && Lookup(models, w.premiumModel) in u.models
    && forall p | p in w.prompts :: p in u.prompts
  }

  /** Whatever was spent, the policy calls models of the universe. */
  ghost predicate Within(u: Universe, models: Models, w: Workload, budget: real, choose: Strategy) {
    forall p, used {:trigger RequestFor(w, p, GLOBAL, budget, used)} | p in w.prompts ::
      var d := choose(RequestFor(w, p, GLOBAL, budget, used));
      d.blocked || Lookup(models, d.modelID) in u.models
  }

  lemma ServeUncached(env: Env, u: Universe, c: Caches, m: Model, p: Prompt)
    requires Proper(u) && Consistent(env, u, c) && m in u.models && p in u.prompts
    ensures ServeFrom(env, c, m, p).0 == ServeOn(env, m, p)
    ensures Consistent(env, u, ServeFrom(env, c, m, p).1)
  {
    var call := CallModel(m, p);
    ConsistentCall(env, u, c, call);
    ConsistentKept(env, u, c, call);
    if Answer(env, m, p).Ok? {
      var judge := Acceptability(m, p, Answer(env, m, p).value.text);
      ConsistentCall(env, u, Left(env, c, call), judge);
      ConsistentKept(env, u, Left(env, c, call), judge);
    }
  }

  /** From consistent caches the cached and the uncached spend are the same. */
  lemma {:induction false} SpendUncached(choose: Strategy, s: Setting, w: Workload, budget: real, ps: seq<Prompt>, c: Caches,
                                         u: Universe)
    requires Proper(u) && Covers(u, s.models, w) && Consistent(s.env, u, c) && Within(u, s.models, w, budget, choose)
    requires forall p | p in ps :: p in w.prompts
    ensures Finish(SpendFrom(choose, s, w, budget, ps, c)) == SpendOn(choose, s, w, budget, ps)
    ensures Consistent(s.env, u, SpendFrom(choose, s, w, budget, ps, c).caches)
  {
    if ps != [] {
      var g := SpendFrom(choose, s, w, budget, ps[..|ps| - 1], c);
      SpendUncached(choose, s, w, budget, ps[..|ps| - 1], c, u);
      var d := choose(RequestFor(w, ps[|ps| - 1], GLOBAL, budget, g.state.used));
      if g.failure.None? && !d.blocked {
        ServeUncached(s.env, u, g.caches, Lookup(s.models, d.modelID), ps[|ps| - 1]);
      }
    }
  }

  lemma {:induction false} PremiumUncached(s: Setting, w: Workload, ps: seq<Prompt>, c: Caches, u: Universe)
    requires Proper(u) && Covers(u, s.models, w) && Consistent(s.env, u, c) && forall p | p in ps :: p in w.prompts
    ensures Finish(PremiumFrom(s, w, ps, c)) == PremiumTotal(s, w, ps)
    ensures Consistent(s.env, u, PremiumFrom(s, w, ps, c).caches)
  {
    if ps != [] {
      var g, call := PremiumFrom(s, w, ps[..|ps| - 1], c), CallModel(Lookup(s.models, w.premiumModel), ps[|ps| - 1]);
      PremiumUncached(s, w, ps[..|ps| - 1], c, u);
      ConsistentCall(s.env, u, g.caches, call);
      ConsistentKept(s.env, u, g.caches, call);
    }
  }

  lemma {:induction false} RowsUncached(pols: seq<Strategy>, s: Setting, w: Workload, budget: real, c: Caches, u: Universe)
    requires Proper(u) && Covers(u, s.models, w) && Consistent(s.env, u, c)
    requires forall k | 0 <= k < |pols| :: Within(u, s.models, w, budget, pols[k])
    ensures BudgetRowsOf(pols, s, w, budget, Finish(RowsFrom(pols, s, w, budget, c)))
    ensures Consistent(s.env, u, RowsFrom(pols, s, w, budget, c).caches)
  {
    if pols != [] {
      var init, pol := pols[..|pols| - 1], pols[|pols| - 1];
      var g := RowsFrom(init, s, w, budget, c);
      RowsUncached(init, s, w, budget, c, u);
      if g.failure.None? {
        SpendUncached(pol, s, w, budget, w.prompts, g.caches, u);
        RowsJoin(init, pol, s, w, budget, g.state);
      } else {
        RowsFail(init, pol, s, w, budget, g.failure.value);
      }
      assert init + [pol] == pols;
    }
  }

  lemma RowsJoin(pols: seq<Strategy>, pol: Strategy, s: Setting, w: Workload, budget: real, rows: seq<BudgetRow>)
    requires BudgetRowsOf(pols, s, w, budget, Ok(rows))
    ensures SpendOn(pol, s, w, budget, w.prompts).Ok? ==>
              BudgetRowsOf(pols + [pol], s, w, budget,
                           Ok(rows + [RowOf(SpendOn(pol, s, w, budget, w.prompts).value, budget)]))
    ensures SpendOn(pol, s, w, budget, w.prompts).Err? ==>
              BudgetRowsOf(pols + [pol], s, w, budget, Err(SpendOn(pol, s, w, budget, w.prompts).error))
  {
    assert (pols + [pol])[|pols|] == pol;
  }

  lemma RowsFail(pols: seq<Strategy>, pol: Strategy, s: Setting, w: Workload, budget: real, error: Error)
    requires BudgetRowsOf(pols, s, w, budget, Err(error))
    ensures BudgetRowsOf(pols + [pol], s, w, budget, Err(error))
  {
    var k :| 0 <= k < |pols| && SpendOn(pols[k], s, w, budget, w.prompts) == Err(error)
             && forall j | 0 <= j < k :: SpendOn(pols[j], s, w, budget, w.prompts).Ok?;
    assert (pols + [pol])[k] == pols[k];
    assert forall j | 0 <= j < k :: (pols + [pol])[j] == pols[j];
  }

  // ---------- the recorded costs ----------

  function Total(costs: seq<real>): real {
    if costs == [] then 0.0 else Total(costs[..|costs| - 1]) + costs[|costs| - 1]
  }

  /** What the answer of a model costs; a failed call costs nothing. */
  function CostOf(env: Env, m: Model, p: Prompt): real {
    match Answer(env, m, p)
    case Ok(r) => TokenCost(m, r.usage.inputTokens, r.usage.outputTokens)
    case Err(_) => 0.0
  }

  function Costs(env: Env, m: Model, ps: seq<Prompt>): (cs: seq<real>)
    ensures |cs| == |ps|
  {
    seq(|ps|, i requires 0 <= i < |ps| => CostOf(env, m, ps[i]))
  }

  /** The first k calls are served: each before the budget is reached, and the rest, if any, after. */
  ghost predicate ServesPrefix(costs: seq<real>, budget: real, k: nat) {
    && k <= |costs|
    && (forall j | 0 <= j < k :: Total(costs[..j]) < budget)
    && (k < |costs| ==> Total(costs[..k]) >= budget)
  }

  lemma PrefixUnique(costs: seq<real>, budget: real, k: nat, k': nat)
    requires ServesPrefix(costs, budget, k) && ServesPrefix(costs, budget, k')
    ensures k == k'
  {
  }

  /** The script's hard-block loop; kept collects the costs it serves. */
  method HardBlockReplay(costs: seq<real>, budget: real)
    returns (used: real, served: nat, blocked: nat, ghost kept: seq<real>)
    ensures served + blocked == |costs| && used == Total(costs[..served])
    ensures ServesPrefix(costs, budget, served)
    ensures kept == costs[..served]
  {
    used, served, blocked, kept := 0.0, 0, 0, [];
    for i := 0 to |costs|
      invariant served + blocked == i && used == Total(costs[..served]) && kept == costs[..served]
      invariant forall j | 0 <= j < served :: Total(costs[..j]) < budget
      invariant blocked > 0 ==> used >= budget
    {
      if used >= budget {
        blocked := blocked + 1;
      } else {
        assert served == i && costs[..i + 1][..i] == costs[..i];
        used := used + costs[i];
        kept := kept + [costs[i]];
        served := served + 1;
      }
    }
  }

  // ---------- the premium policies ----------

  /** A premium decision is served by the model whose cost sets the budget. */
  ghost predicate PremiumResolves(s: Setting, w: Workload) {
    Keyed(s.models) && (w.premiumModel in s.models || "" !in s.models)
  }

  lemma CostsSnoc(env: Env, m: Model, ps: seq<Prompt>)
    requires ps != []
    ensures Costs(env, m, ps) == Costs(env, m, ps[..|ps| - 1]) + [CostOf(env, m, ps[|ps| - 1])]
    ensures Total(Costs(env, m, ps)) == Total(Costs(env, m, ps[..|ps| - 1])) + CostOf(env, m, ps[|ps| - 1])
  {
    var all, init := Costs(env, m, ps), Costs(env, m, ps[..|ps| - 1]);
    assert all[..|all| - 1] == init;
  }

  lemma {:induction false} PremiumTotalIs(s: Setting, w: Workload, ps: seq<Prompt>)
    requires PremiumTotal(s, w, ps).Ok?
    ensures PremiumTotal(s, w, ps).value == Total(Costs(s.env, Lookup(s.models, w.premiumModel), ps))
  {
    if ps != [] {
      PremiumTotalIs(s, w, ps[..|ps| - 1]);
      CostsSnoc(s.env, Lookup(s.models, w.premiumModel), ps);
    }
  }

  /** alert-only serves everything, at the premium cost. */
  lemma {:induction false} AlertOnlyServesAll(norm: Normalizer, s: Setting, w: Workload, budget: real, ps: seq<Prompt>)
    requires PremiumResolves(s, w) && SpendOn(PremiumStrategy(norm, s.models), s, w, budget, ps).Ok?
    ensures var t := SpendOn(PremiumStrategy(norm, s.models), s, w, budget, ps).value;
      && t.served == |ps| && t.blocked == 0
      && t.used == Total(Costs(s.env, Lookup(s.models, w.premiumModel), ps))
  {
    if ps != [] {
      AlertOnlyServesAll(norm, s, w, budget, ps[..|ps| - 1]);
      CostsSnoc(s.env, Lookup(s.models, w.premiumModel), ps);
    }
  }

  /** One more call: it is served exactly while everything before it was, below the budget. */
  lemma PrefixExtends(costs: seq<real>, c: real, budget: real, k: nat)
    requires ServesPrefix(costs, budget, k)
    ensures Total(costs[..k]) < budget ==> k == |costs|
    ensures ServesPrefix(costs + [c], budget, if Total(costs[..k]) < budget then k + 1 else k)
    ensures (costs + [c])[..k] == costs[..k]
    ensures k == |costs| ==> Total((costs + [c])[..k + 1]) == Total(costs[..k]) + c
  {
    forall j | 0 <= j <= |costs| ensures (costs + [c])[..j] == costs[..j] {
    }
    if k == |costs| {
      assert (costs + [c])[..k + 1][..k] == costs[..k];
    }
  }

  /** A spend against the recorded costs: the prefix the budget allows, and what it costs. */
  ghost predicate SpendsPrefix(costs: seq<real>, budget: real, t: Spend) {
    && t.served + t.blocked == |costs|
    && ServesPrefix(costs, budget, t.served) && t.used == Total(costs[..t.served])
  }

  /** A further call at cost c is served exactly while the spend is below the budget. */
  ghost predicate Blocks(budget: real, c: real, t: Spend, t': Spend) {
    if t.used < budget then t'.served == t.served + 1 && t'.blocked == t.blocked && t'.used == t.used + c
    else t'.served == t.served && t'.blocked == t.blocked + 1 && t'.used == t.used
  }

  lemma SpendsPrefixSnoc(costs: seq<real>, c: real, budget: real, t: Spend, t': Spend)
    requires SpendsPrefix(costs, budget, t) && Blocks(budget, c, t, t')
    ensures SpendsPrefix(costs + [c], budget, t')
  {
    PrefixExtends(costs, c, budget, t.served);
  }

  /** hard-block serves a prompt with the premium model exactly while the spend is below the budget. */
  lemma HardBlockStep(norm: Normalizer, s: Setting, w: Workload, budget: real, t: Spend, p: Prompt)
    requires PremiumResolves(s, w) && UncachedStep(HardBlockStrategy(norm, s.models), s, w, budget, t, p).Ok?
    ensures Blocks(budget, CostOf(s.env, Lookup(s.models, w.premiumModel), p), t,
                   UncachedStep(HardBlockStrategy(norm, s.models), s, w, budget, t, p).value)
  {
  }

  /** hard-block serves exactly the prefix the budget allows, at the premium cost. */
  lemma {:induction false} HardBlockServesPrefix(norm: Normalizer, s: Setting, w: Workload, budget: real, ps: seq<Prompt>)
    requires PremiumResolves(s, w) && SpendOn(HardBlockStrategy(norm, s.models), s, w, budget, ps).Ok?
    ensures SpendsPrefix(Costs(s.env, Lookup(s.models, w.premiumModel), ps), budget,
                         SpendOn(HardBlockStrategy(norm, s.models), s, w, budget, ps).value)
  {
    if ps != [] {
      var init, p, pm := ps[..|ps| - 1], ps[|ps| - 1], Lookup(s.models, w.premiumModel);
      HardBlockServesPrefix(norm, s, w, budget, init);
      CostsSnoc(s.env, pm, ps);
      var t := SpendOn(HardBlockStrategy(norm, s.models), s, w, budget, init).value;
      HardBlockStep(norm, s, w, budget, t, p);
      SpendsPrefixSnoc(Costs(s.env, pm, init), CostOf(s.env, pm, p), budget, t,
                       SpendOn(HardBlockStrategy(norm, s.models), s, w, budget, ps).value);
    }
  }

  /** The routed experiment and the replay of its recorded costs agree. */
  lemma HardBlockMatchesReplay(norm: Normalizer, s: Setting, w: Workload, budget: real, ps: seq<Prompt>, k: nat)
    requires PremiumResolves(s, w) && SpendOn(HardBlockStrategy(norm, s.models), s, w, budget, ps).Ok?
    requires ServesPrefix(Costs(s.env, Lookup(s.models, w.premiumModel), ps), budget, k)
    ensures var t := SpendOn(HardBlockStrategy(norm, s.models), s, w, budget, ps).value;
      && t.served == k && t.blocked == |ps| - k
      && t.used == Total(Costs(s.env, Lookup(s.models, w.premiumModel), ps)[..k])
      && (k > 0 ==> t.used < budget + CostOf(s.env, Lookup(s.models, w.premiumModel), ps[k - 1]))
  {
    HardBlockServesPrefix(norm, s, w, budget, ps);
    var costs := Costs(s.env, Lookup(s.models, w.premiumModel), ps);
    PrefixUnique(costs, budget, SpendOn(HardBlockStrategy(norm, s.models), s, w, budget, ps).value.served, k);
    if k > 0 {
      assert costs[..k][..k - 1] == costs[..k - 1];
      assert Total(costs[..k - 1]) < budget;
    }
  }

  // ---------- graceful degradation ----------

  ghost predicate SomeAllowed(s: Setting, w: Workload) {
    exists id | id in w.allowedModels :: id in s.models
  }

  /** Unrestricted, Ours blocks a request exactly when no allowed model is in the catalog, whatever the budget. */
  lemma OursBlocksIff(norm: Normalizer, s: Setting, w: Workload, ctx: Request)
    requires Keyed(s.models) && ctx.scenario == GLOBAL && ctx.allowedModels == w.allowedModels
    ensures OursStrategy(norm, s.models)(ctx).blocked <==> !SomeAllowed(s, w)
  {
    OursMinimises(DEFAULT_WEIGHTS, norm, ctx, s.models);
    var ok := Candidates(norm, ctx, s.models);
    if SomeAllowed(s, w) {
      var id :| id in w.allowedModels && id in s.models;
      CandidateMember(norm, ctx, s.models, s.models[id]);
    } else if ok != [] {
      CandidateMember(norm, ctx, s.models, ok[0]);
    }
  }

  lemma {:induction false} OursBlocksAllOrNone(norm: Normalizer, s: Setting, w: Workload, budget: real, ps: seq<Prompt>)
    requires Keyed(s.models) && SpendOn(OursStrategy(norm, s.models), s, w, budget, ps).Ok?
    ensures var t := SpendOn(OursStrategy(norm, s.models), s, w, budget, ps).value;
      && t.served == (if SomeAllowed(s, w) then |ps| else 0)
      && t.blocked == (if SomeAllowed(s, w) then 0 else |ps|)
  {
    if ps != [] {
      OursBlocksAllOrNone(norm, s, w, budget, ps[..|ps| - 1]);
      var t := SpendOn(OursStrategy(norm, s.models), s, w, budget, ps[..|ps| - 1]).value;
      OursBlocksIff(norm, s, w, RequestFor(w, ps[|ps| - 1], GLOBAL, budget, t.used));
    }
  }

  // ---------- overrun ----------

  /** Spending the whole premium cost against 40% of it is 150% over, unless the premium costs nothing. */
  lemma AlertOnlyOverrun(premiumAll: real)
    ensures Overrun(premiumAll, BudgetOf(premiumAll)) == Some(if premiumAll > 0.0 then 150.0 else 0.0)
  {
    if premiumAll > 0.0 {
      var budget := BudgetOf(premiumAll);
      assert premiumAll - budget == 1.5 * budget;
      assert (premiumAll - budget) / budget == 1.5;
    }
  }

  lemma HardBlockOutcome(norm: Normalizer, s: Setting, w: Workload, premiumAll: real, hard: Spend)
    requires PremiumResolves(s, w) && PremiumTotal(s, w, w.prompts) == Ok(premiumAll)
    requires SpendOn(HardBlockStrategy(norm, s.models), s, w, BudgetOf(premiumAll), w.prompts) == Ok(hard)
    ensures hard.served + hard.blocked == |w.prompts|
    ensures hard.blocked > 0 ==> hard.used >= BudgetOf(premiumAll)
    ensures hard.served > 0 ==>
              hard.used < BudgetOf(premiumAll)
                          + CostOf(s.env, Lookup(s.models, w.premiumModel), w.prompts[hard.served - 1])
    ensures hard.blocked == 0 ==> hard.used == premiumAll
  {
    var costs := Costs(s.env, Lookup(s.models, w.premiumModel), w.prompts);
    PremiumTotalIs(s, w, w.prompts);
    HardBlockServesPrefix(norm, s, w, BudgetOf(premiumAll), w.prompts);
    HardBlockMatchesReplay(norm, s, w, BudgetOf(premiumAll), w.prompts, hard.served);
    assert costs[..|costs|] == costs;
  }

  lemma AlertOnlyOutcome(norm: Normalizer, s: Setting, w: Workload, premiumAll: real, alert: Spend)
    requires PremiumResolves(s, w) && PremiumTotal(s, w, w.prompts) == Ok(premiumAll)
    requires SpendOn(PremiumStrategy(norm, s.models), s, w, BudgetOf(premiumAll), w.prompts) == Ok(alert)
    ensures alert.served == |w.prompts| && alert.used == premiumAll
    ensures Overrun(alert.used, BudgetOf(premiumAll)) == Some(if premiumAll > 0.0 then 150.0 else 0.0)
  {
    PremiumTotalIs(s, w, w.prompts);
    AlertOnlyServesAll(norm, s, w, BudgetOf(premiumAll), w.prompts);
    AlertOnlyOverrun(premiumAll);
  }

  /**
   The budget experiment without call errors: what alert-only, hard-block and ours-graceful serve, block and
   spend against 40% of the premium cost.
   */
  lemma BudgetOutcome(norm: Normalizer, s: Setting, w: Workload, premiumAll: real, rows: seq<BudgetRow>)
    requires PremiumResolves(s, w) && PremiumTotal(s, w, w.prompts) == Ok(premiumAll)
    requires BudgetRowsOf(Policies(norm, s.models), s, w, BudgetOf(premiumAll), Ok(rows))
    ensures BudgetFacts(s, w, premiumAll, rows)
  {
    var budget, pols := BudgetOf(premiumAll), Policies(norm, s.models);
    assert SpendOn(pols[0], s, w, budget, w.prompts) == Ok(rows[0].spend);
    assert SpendOn(pols[1], s, w, budget, w.prompts) == Ok(rows[1].spend);
    assert SpendOn(pols[2], s, w, budget, w.prompts) == Ok(rows[2].spend);
    AlertOnlyOutcome(norm, s, w, premiumAll, rows[0].spend);
    HardBlockOutcome(norm, s, w, premiumAll, rows[1].spend);
    OursBlocksAllOrNone(norm, s, w, budget, w.prompts);
  }

  /** What the rows promise, for a premium total and a budget of 40% of it. */
  ghost predicate BudgetFacts(s: Setting, w: Workload, premiumAll: real, rows: seq<BudgetRow>) {
    && |rows| == 3
    && rows[0].spend.served == |w.prompts| && rows[0].spend.used == premiumAll
    && rows[0].overrun == Some(if premiumAll > 0.0 then 150.0 else 0.0)
    && rows[1].spend.served + rows[1].spend.blocked == |w.prompts|
    && (rows[1].spend.blocked > 0 ==> rows[1].spend.used >= BudgetOf(premiumAll))
    && (rows[1].spend.served > 0 ==>
          rows[1].spend.used < BudgetOf(premiumAll)
            + CostOf(s.env, Lookup(s.models, w.premiumModel), w.prompts[rows[1].spend.served - 1]))
    && (rows[1].spend.blocked == 0 ==> rows[1].spend.used == premiumAll)
    && (SomeAllowed(s, w) ==> rows[2].spend.blocked == 0 && rows[2].spend.served == |w.prompts| >= rows[1].spend.served)
  }

  /** The three policies call the premium model or a catalog model. */
  lemma PoliciesWithin(norm: Normalizer, s: Setting, w: Workload, budget: real, u: Universe)
    requires PremiumResolves(s, w) && Covers(u, s.models, w)
    ensures forall k | 0 <= k < 3 :: Within(u, s.models, w, budget, Policies(norm, s.models)[k])
  {
    forall p, used | p in w.prompts && !OursStrategy(norm, s.models)(RequestFor(w, p, GLOBAL, budget, used)).blocked
      ensures OursStrategy(norm, s.models)(RequestFor(w, p, GLOBAL, budget, used)).modelID in s.models
    {
      var ctx := RequestFor(w, p, GLOBAL, budget, used);
      FilteredChoiceComplies(0, DEFAULT_WEIGHTS, norm, ctx, s.models, ChooseOurs(DEFAULT_WEIGHTS, norm, ctx, s.models));
    }
    assert Within(u, s.models, w, budget, OursStrategy(norm, s.models));
    assert Within(u, s.models, w, budget, PremiumStrategy(norm, s.models));
    assert Within(u, s.models, w, budget, HardBlockStrategy(norm, s.models));
  }

  /** The whole experiment from consistent caches: total and rows of the runner satisfy them. */
  lemma BudgetExperiment(norm: Normalizer, s: Setting, w: Workload, c: Caches, u: Universe)
    requires PremiumResolves(s, w) && Proper(u) && Covers(u, s.models, w) && Consistent(s.env, u, c)
    requires PremiumFrom(s, w, w.prompts, c).failure.None?
    ensures var total := PremiumFrom(s, w, w.prompts, c);
      var g := RowsFrom(Policies(norm, s.models), s, w, BudgetOf(total.state), total.caches);
      g.failure.None? ==> BudgetFacts(s, w, total.state, g.state)
  {
    var total := PremiumFrom(s, w, w.prompts, c);
    PremiumUncached(s, w, w.prompts, c, u);
    PoliciesWithin(norm, s, w, BudgetOf(total.state), u);
    var g := RowsFrom(Policies(norm, s.models), s, w, BudgetOf(total.state), total.caches);
    RowsUncached(Policies(norm, s.models), s, w, BudgetOf(total.state), total.caches, u);
    if g.failure.None? {
      BudgetOutcome(norm, s, w, total.state, g.state);
    }
  }
}
