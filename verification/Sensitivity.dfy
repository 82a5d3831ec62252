/**
 The second implementation of the scoring rule (experimentation/scripts/sensitivity_analysis.py) and its
 agreement with the router: allowed order instead of ID order, no sovereignty filter, no score cap.
 */
module Sensitivity {
  import opened Catalog
  import opened Router
  import opened RoutingProperties
  import opened Strategies
  import opened Wrappers

  const TINY := 0.000000001

  /** The weights and gate setting of the policy_only_least_cost scenario. */
  const LEAST_COST_WEIGHTS := Weights(100.0, 0.0, 0.0, 0.0, 0.0)

  function AllowedModels(models: Models, ids: seq<string>): seq<Model> {
    if ids == [] then []
    else AllowedModels(models, ids[..|ids| - 1])
         + if ids[|ids| - 1] in models then [models[ids[|ids| - 1]]] else []
  }

  function ScriptPool(ctx: Request, models: Models, ignoreGate: bool): seq<Model> {
    var allowed := AllowedModels(models, ctx.allowedModels);
    var pool := if ignoreGate || Exhausted(ctx) then allowed else GoodEnough(allowed, ctx.minQuality);
    if pool == [] then allowed else pool
  }

  function ScriptScale(ctx: Request, models: Models, pool: seq<Model>): (s: Scale)
    requires ctx.premiumModel in models
    ensures ProperScale(s)
  {
    var premium := models[ctx.premiumModel];
    Scale(Max(EstCost(ctx)(premium), TINY), Max(premium.qualityPrior, TINY), Pressure(ctx), MaxLatency(pool))
  }

  /** The script's score: no model carries a sovereignty risk. */
  function ScriptScore(w: Weights, s: Scale, ctx: Request): Model -> real
    requires ProperScale(s)
  {
    m => CostScore(w, s.pressure, NormCost(s, EstCost(ctx)(m)))
         + BaseScore(w, s, m.qualityPrior, m.latencyPriorMS, 0.0)
  }

  function ScriptChoice(w: Weights, ctx: Request, models: Models, ignoreGate: bool): Option<Model>
    requires ctx.premiumModel in models
  {
    var pool := ScriptPool(ctx, models, ignoreGate);
    if pool == [] then None else Some(FirstMin(pool, ScriptScore(w, ScriptScale(ctx, models, pool), ctx)))
  }

  /** choose: the comprehension over the allowed models, the gate and the scoring loop. */
  method Choose(w: Weights, ctx: Request, models: Models, ignoreGate: bool) returns (best: Option<Model>)
    requires ctx.premiumModel in models
    ensures best == ScriptChoice(w, ctx, models, ignoreGate)
  {
    var pool := ScriptPool(ctx, models, ignoreGate);
    var score := ScriptScore(w, ScriptScale(ctx, models, pool), ctx);
    best := None;
    var bestScore := 0.0;
    for i := 0 to |pool|
      invariant i == 0 ==> best == None
      invariant i > 0 ==> best == Some(FirstMin(pool[..i], score)) && bestScore == score(best.value)
    {
      assert i > 0 ==> pool[..i + 1][..i] == pool[..i];
      if best == None || score(pool[i]) < bestScore {
        bestScore := score(pool[i]);
        best := Some(pool[i]);
      }
    }
    assert pool[..|pool|] == pool;
  }

  // ---------- agreement of the pools ----------

  lemma {:induction false} AllowedMember(models: Models, ids: seq<string>, m: Model)
    requires Keyed(models)
    ensures m in AllowedModels(models, ids) <==> m.id in ids && m.id in models && models[m.id] == m
  {
    if ids != [] {
      var init, last := ids[..|ids| - 1], ids[|ids| - 1];
      AllowedMember(models, init, m);
      assert m.id in ids <==> m.id in init || m.id == last;
    }
  }

  ghost predicate SameMembers(a: seq<Model>, b: seq<Model>) {
    forall m :: m in a <==> m in b
  }

  lemma {:induction false} MaxLatencyAttained(pool: seq<Model>)
    ensures MaxLatency(pool) == 1.0 || exists m :: m in pool && m.latencyPriorMS == MaxLatency(pool)
  {
    if pool != [] {
      var init, last := pool[..|pool| - 1], pool[|pool| - 1];
      MaxLatencyAttained(init);
      if MaxLatency(init) != 1.0 {
        var m :| m in init && m.latencyPriorMS == MaxLatency(init);
        assert m in pool && last in pool;
      } else {
        assert last in pool;
      }
    }
  }

  lemma MaxLatencySame(a: seq<Model>, b: seq<Model>)
    requires SameMembers(a, b)
    ensures MaxLatency(a) == MaxLatency(b)
  {
    MaxLatencyAttained(a);
    MaxLatencyAttained(b);
  }

  /** Under the global scenario both sides consider the same models. */
  lemma SamePools(norm: Normalizer, ctx: Request, models: Models)
    requires Keyed(models) && ctx.scenario == GLOBAL
    ensures SameMembers(AllowedModels(models, ctx.allowedModels), Candidates(norm, ctx, models))
    ensures SameMembers(ScriptPool(ctx, models, false), OursPool(norm, ctx, models))
  {
    var allowed, ok := AllowedModels(models, ctx.allowedModels), Candidates(norm, ctx, models);
    forall m ensures m in allowed <==> m in ok {
      AllowedMember(models, ctx.allowedModels, m);
      CandidateMember(norm, ctx, models, m);
    }
    var a, b := GoodEnough(allowed, ctx.minQuality), GoodEnough(ok, ctx.minQuality);
    forall m ensures m in a <==> m in b {
      GoodEnoughMember(allowed, ctx.minQuality, m);
      GoodEnoughMember(ok, ctx.minQuality, m);
    }
    EmptyTogether(a, b);
    EmptyTogether(allowed, ok);
  }

  lemma EmptyTogether(a: seq<Model>, b: seq<Model>)
    requires SameMembers(a, b)
    ensures a == [] <==> b == []
  {
    if a != [] { assert a[0] in b; }
    if b != [] { assert b[0] in a; }
  }

  /** The normalisers are the same numbers exactly for these premium costs and qualities. */
  lemma NormalisersAgree(ctx: Request, models: Models)
    requires ctx.premiumModel in models
    ensures var c, q := EstCost(ctx)(models[ctx.premiumModel]), models[ctx.premiumModel].qualityPrior;
      && (Max(c, TINY) == PremiumCost(ctx, models) <==> c <= 0.0 || c >= TINY)
      && (Max(q, TINY) == PremiumQuality(ctx, models) <==> q >= TINY)
  {
  }

  predicate UsualPremium(ctx: Request, models: Models) {
    && ctx.premiumModel in models
    && (EstCost(ctx)(models[ctx.premiumModel]) <= 0.0 || EstCost(ctx)(models[ctx.premiumModel]) >= TINY)
    && models[ctx.premiumModel].qualityPrior >= TINY
  }

  lemma SameScores(w: Weights, norm: Normalizer, ctx: Request, models: Models, m: Model)
    requires Keyed(models) && ctx.scenario == GLOBAL && UsualPremium(ctx, models)
    ensures var pool := ScriptPool(ctx, models, false);
      ScriptScore(w, ScriptScale(ctx, models, pool), ctx)(m)
      == Score(w, ctx, models, OursPool(norm, ctx, models))(m)
  {
    SamePools(norm, ctx, models);
    MaxLatencySame(ScriptPool(ctx, models, false), OursPool(norm, ctx, models));
    NormalisersAgree(ctx, models);
    assert ScriptScale(ctx, models, ScriptPool(ctx, models, false))
        == ScaleOf(ctx, models, OursPool(norm, ctx, models));
    assert SovereigntyRisk(ctx, m) == 0.0;
  }

  /** Some score is below the router's cap, or its first model is a minimiser anyway. */
  ghost predicate CapHarmless(pool: seq<Model>, score: Model -> real) {
    pool != [] && ((exists m | m in pool :: score(m) < SCORE_CAP) || forall m | m in pool :: score(pool[0]) <= score(m))
  }

  /**
   Under the global scenario the script always minimises the score, and serves nothing exactly when the router does.
   Router and script attain the same score exactly where the router's cap is harmless, and then pick the same model
   whenever only one attains it.
   */
  lemma ScriptAgreesWithRouter(w: Weights, norm: Normalizer, ctx: Request, models: Models)
    requires Keyed(models) && ctx.scenario == GLOBAL && UsualPremium(ctx, models)
    ensures ScriptChoice(w, ctx, models, false) == None <==> ChooseOurs(w, norm, ctx, models).blocked
    ensures ScriptChoice(w, ctx, models, false).Some? ==>
              var pool := OursPool(norm, ctx, models);
              var score := Score(w, ctx, models, pool);
              var script, router := ScriptChoice(w, ctx, models, false).value, OursPick(w, norm, ctx, models);
              && script in pool && (forall m | m in pool :: score(script) <= score(m))
              && (score(script) == score(router) <==> CapHarmless(pool, score))
              && ((forall m | m in pool && score(m) == score(script) :: m == script) ==>
                    (script == router <==> CapHarmless(pool, score)))
  {
    var pool, pool' := OursPool(norm, ctx, models), ScriptPool(ctx, models, false);
    BlockedTogether(w, norm, ctx, models);
    if pool != [] {
      var score, score' := Score(w, ctx, models, pool), ScriptScore(w, ScriptScale(ctx, models, pool'), ctx);
      forall m ensures score'(m) == score(m) {
        SameScores(w, norm, ctx, models, m);
      }
      ScriptAttainsMinimum(pool, pool', score, score');
      OursMinimisesBelowCap(w, norm, ctx, models);
      MinimiserScore(pool, score, ScriptChoice(w, ctx, models, false).value, OursPick(w, norm, ctx, models));
    }
  }

  /** Script and router have a pool to choose from, or neither has. */
  lemma BlockedTogether(w: Weights, norm: Normalizer, ctx: Request, models: Models)
    requires Keyed(models) && ctx.scenario == GLOBAL
    ensures SameMembers(ScriptPool(ctx, models, false), OursPool(norm, ctx, models))
    ensures OursPool(norm, ctx, models) == [] <==> ScriptPool(ctx, models, false) == []
    ensures OursPool(norm, ctx, models) == [] <==> ChooseOurs(w, norm, ctx, models).blocked
    ensures OursPool(norm, ctx, models) != [] ==> OursPick(w, norm, ctx, models) in OursPool(norm, ctx, models)
  {
    SamePools(norm, ctx, models);
    var ok := Candidates(norm, ctx, models);
    EmptyTogether(OursPool(norm, ctx, models), ScriptPool(ctx, models, false));
    OursMinimises(w, norm, ctx, models);
    if ok != [] { assert Pool(ctx, ok) != []; }
  }

  /** Over the same models with the same scores, the script's scan ends at a minimiser. */
  lemma ScriptAttainsMinimum(pool: seq<Model>, pool': seq<Model>, score: Model -> real, score': Model -> real)
    requires pool != [] && pool' != [] && SameMembers(pool', pool)
    requires forall m :: score'(m) == score(m)
    ensures FirstMin(pool', score') in pool
    ensures forall m | m in pool :: score(FirstMin(pool', score')) <= score(m)
  {
    var i := FirstMinIs(pool', score');
    assert pool'[i] in pool';
    forall m | m in pool ensures score(pool'[i]) <= score(m) {
      assert m in pool';
      var j :| 0 <= j < |pool'| && pool'[j] == m;
      assert score'(pool'[i]) <= score'(pool'[j]);
    }
  }

  /** A model attains the smallest score exactly when it is a minimiser itself. */
  lemma MinimiserScore(pool: seq<Model>, score: Model -> real, best: Model, m: Model)
    requires best in pool && m in pool && forall x | x in pool :: score(best) <= score(x)
    ensures score(best) == score(m) <==> forall x | x in pool :: score(m) <= score(x)
  {
  }

  /** With the least-cost weights and no gate the script serves a cheapest model, as LeastCost does. */
  lemma ScriptLeastCost(norm: Normalizer, ctx: Request, models: Models)
    requires Keyed(models) && ctx.scenario == GLOBAL && ctx.premiumModel in models
    ensures ScriptChoice(LEAST_COST_WEIGHTS, ctx, models, true) == None
        <==> ChooseLeastCost(norm, ctx, models).blocked
    ensures ScriptChoice(LEAST_COST_WEIGHTS, ctx, models, true).Some? ==>
              var m := ScriptChoice(LEAST_COST_WEIGHTS, ctx, models, true).value;
              && EstCost(ctx)(m) == ChooseLeastCost(norm, ctx, models).expectedCostEUR
              && (forall x | x in Candidates(norm, ctx, models) :: EstCost(ctx)(m) <= EstCost(ctx)(x))
  {
    SamePools(norm, ctx, models);
    LeastCostMinimises(norm, ctx, models);
    var ok, pool := Candidates(norm, ctx, models), ScriptPool(ctx, models, true);
    EmptyTogether(pool, ok);
    if pool != [] {
      var s := ScriptScale(ctx, models, pool);
      var score := ScriptScore(LEAST_COST_WEIGHTS, s, ctx);
      var i := FirstMinIs(pool, score);
      assert pool[i] in ok;
      forall x | x in ok ensures EstCost(ctx)(pool[i]) <= EstCost(ctx)(x) {
        assert x in pool;
        var j :| 0 <= j < |pool| && pool[j] == x;
        LeastCostScore(s, ctx, pool[i]);
        LeastCostScore(s, ctx, x);
        NormCostOrder(s, ctx, pool[i], x);
      }
    }
  }

  lemma LeastCostScore(s: Scale, ctx: Request, m: Model)
    requires ProperScale(s)
    ensures ScriptScore(LEAST_COST_WEIGHTS, s, ctx)(m) == 100.0 * NormCosts(s, ctx)(m)
  {
    ZeroWeights(NormCost(s, EstCost(ctx)(m)), s.pressure, QualityLoss(s, m.qualityPrior), m.latencyPriorMS / s.maxLatency);
  }

  lemma ZeroWeights(cost: real, pressure: real, loss: real, latency: real)
    ensures 100.0 * cost * (1.0 + 0.0 * pressure) == 100.0 * cost
    ensures 0.0 * loss + 0.0 * latency + 0.0 * 0.0 == 0.0
  {
    assert 0.0 * pressure == 0.0;
  }
}
