/** What the routing strategies promise, across requests, budgets and sovereignty scenarios. */
module RoutingProperties {
  import opened Catalog
  import opened Reals
  import opened Router
  import opened Sorting
  import opened Strategies

  // ---------- the choice of Ours ----------

  lemma {:induction false} GoodEnoughMember(s: seq<Model>, quality: real, m: Model)
    ensures m in GoodEnough(s, quality) <==> m in s && m.qualityPrior >= quality
  {
    if s != [] {
      GoodEnoughMember(s[..|s| - 1], quality, m);
      assert m in s <==> m in s[..|s| - 1] || m == s[|s| - 1];
    }
  }

  /** A gated list keeps the order of the list it came from. */
  lemma {:induction false} GoodEnoughSorted(s: seq<Model>, quality: real)
    requires SortedBy(s, IdLe)
    ensures SortedBy(GoodEnough(s, quality), IdLe)
  {
    if s != [] {
      var init, last := s[..|s| - 1], s[|s| - 1];
      GoodEnoughSorted(init, quality);
      var g := GoodEnough(init, quality);
      forall i | 0 <= i < |g| ensures IdLe(g[i], last) {
        GoodEnoughMember(init, quality, g[i]);
        assert g[i] in init;
      }
    }
  }

  lemma CandidatesSorted(norm: Normalizer, ctx: Request, models: Models)
    ensures SortedBy(Candidates(norm, ctx, models), IdLe)
  {
    StringOrders();
    SortSorted(Compliant(norm, ctx, models, ctx.allowedModels), IdLe);
  }

  function OursPool(norm: Normalizer, ctx: Request, models: Models): seq<Model> {
    Pool(ctx, Candidates(norm, ctx, models))
  }

  function OursPick(w: Weights, norm: Normalizer, ctx: Request, models: Models): Model
    requires OursPool(norm, ctx, models) != []
  {
    var pool := OursPool(norm, ctx, models);
    FirstMin(pool, Capped(Score(w, ctx, models, pool)))
  }

  /** The pool is the compliant models that pass the gate, or all of them when none passes or none is needed. */
  lemma PoolMember(norm: Normalizer, ctx: Request, models: Models, m: Model)
    requires Keyed(models)
    ensures OursPool(norm, ctx, models) == [] <==> Candidates(norm, ctx, models) == []
    ensures m in OursPool(norm, ctx, models) <==>
              && m.id in ctx.allowedModels && Complies(norm, ctx, models, m.id) && models[m.id] == m
              && (|| Exhausted(ctx) || m.qualityPrior >= ctx.minQuality
                  || forall x | x in Candidates(norm, ctx, models) :: x.qualityPrior < ctx.minQuality)
  {
    var ok := Candidates(norm, ctx, models);
    CandidateMember(norm, ctx, models, m);
    forall x ensures x in GoodEnough(ok, ctx.minQuality) <==> x in ok && x.qualityPrior >= ctx.minQuality {
      GoodEnoughMember(ok, ctx.minQuality, x);
    }
    if GoodEnough(ok, ctx.minQuality) == [] {
      assert forall x | x in ok :: x.qualityPrior < ctx.minQuality;
    } else {
      assert GoodEnough(ok, ctx.minQuality)[0] in GoodEnough(ok, ctx.minQuality);
    }
  }

  /** Ours serves the smallest-ID minimiser, over its pool, of the score capped at 1e18; it blocks only on no candidate. */
  lemma OursMinimises(w: Weights, norm: Normalizer, ctx: Request, models: Models)
    requires Keyed(models)
    ensures ChooseOurs(w, norm, ctx, models).blocked <==> Candidates(norm, ctx, models) == []
    ensures !ChooseOurs(w, norm, ctx, models).blocked ==>
              var pool := OursPool(norm, ctx, models);
              var key, best := Capped(Score(w, ctx, models, pool)), OursPick(w, norm, ctx, models);
              && ChooseOurs(w, norm, ctx, models).modelID == best.id
              && ChooseOurs(w, norm, ctx, models).expectedCostEUR == EstCost(ctx)(best)
              && best in pool
              && (forall m | m in pool :: key(best) <= key(m))
              && (forall m | m in pool && key(m) == key(best) :: StrLe(best.id, m.id))
  {
    var ok := Candidates(norm, ctx, models);
    if ok != [] {
      CandidatesSorted(norm, ctx, models);
      GoodEnoughSorted(ok, ctx.minQuality);
      var pool := OursPool(norm, ctx, models);
      FirstMinSmallestID(pool, Capped(Score(w, ctx, models, pool)));
    }
  }

  /**
   The choice minimises the score itself exactly when some model scores below the cap, or the pool's
   first model happens to be a minimiser.
   */
  lemma OursMinimisesBelowCap(w: Weights, norm: Normalizer, ctx: Request, models: Models)
    requires Keyed(models) && Candidates(norm, ctx, models) != []
    ensures OursPool(norm, ctx, models) != []
    ensures var pool := OursPool(norm, ctx, models);
            var score := Score(w, ctx, models, pool);
            (forall m | m in pool :: score(OursPick(w, norm, ctx, models)) <= score(m))
            <==> || (exists m | m in pool :: score(m) < SCORE_CAP)
                 || (forall m | m in pool :: score(pool[0]) <= score(m))
  {
    var pool := OursPool(norm, ctx, models);
    var score := Score(w, ctx, models, pool);
    var i := FirstMinIs(pool, Capped(score));
    if m :| m in pool && score(m) < SCORE_CAP {
      var j :| 0 <= j < |pool| && pool[j] == m;
      assert Capped(score)(pool[i]) <= Capped(score)(pool[j]);
      forall x | x in pool ensures score(pool[i]) <= score(x) {
        var k :| 0 <= k < |pool| && pool[k] == x;
        assert Capped(score)(pool[i]) <= Capped(score)(pool[k]);
      }
    } else {
      assert Capped(score)(pool[0]) == SCORE_CAP == Capped(score)(pool[i]);
      assert i == 0;
    }
  }

  lemma ScoreSame(w: Weights, ctx: Request, ctx': Request, models: Models, pool: seq<Model>, m: Model)
    requires ctx' == ctx.(allowedModels := ctx'.allowedModels)
    ensures Score(w, ctx', models, pool)(m) == Score(w, ctx, models, pool)(m)
  {
    assert ScaleOf(ctx', models, pool) == ScaleOf(ctx, models, pool);
    assert EstCost(ctx')(m) == EstCost(ctx)(m);
  }

  /** The order of the allowed models does not change the decision. */
  lemma OursOrderIndependent(w: Weights, norm: Normalizer, ctx: Request, ctx': Request, models: Models)
    requires Keyed(models) && multiset(ctx.allowedModels) == multiset(ctx'.allowedModels)
    requires ctx' == ctx.(allowedModels := ctx'.allowedModels)
    ensures ChooseOurs(w, norm, ctx', models) == ChooseOurs(w, norm, ctx, models)
  {
    CandidatesOrderIndependent(norm, ctx, ctx', models);
    var ok := Candidates(norm, ctx, models);
    if ok != [] {
      var pool := Pool(ctx, ok);
      assert Pool(ctx', ok) == pool;
      var key, key' := Capped(Score(w, ctx, models, pool)), Capped(Score(w, ctx', models, pool));
      forall m | m in pool ensures key(m) == key'(m) {
        ScoreSame(w, ctx, ctx', models, pool, m);
      }
      FirstMinCong(pool, key, key');
      var best := FirstMin(pool, key);
      assert EstCost(ctx')(best) == EstCost(ctx)(best);
    }
  }

  // ---------- budget pressure ----------

  lemma PressureMono(ctx: Request, ctx': Request)
    requires ctx' == ctx.(budgetUsedEUR := ctx'.budgetUsedEUR) && ctx.budgetUsedEUR <= ctx'.budgetUsedEUR
    ensures Pressure(ctx) <= Pressure(ctx')
  {
    if ctx.budgetTotalEUR > 0.0 {
      DivMono(ctx.budgetUsedEUR, ctx'.budgetUsedEUR, ctx.budgetTotalEUR);
    }
  }

  /** Pressure adds to the score a multiple of the normalised cost. */
  lemma PressureShift(w: Weights, p: real, p': real, cost: real)
    ensures CostScore(w, p', cost) == CostScore(w, p, cost) + Mul(Surcharge(w, p' - p), cost)
  {
  }

  lemma CapTransparent(pool: seq<Model>, score: Model -> real, best: Model, m: Model)
    requires pool != [] && best == FirstMin(pool, Capped(score)) && m in pool
    requires exists x | x in pool :: score(x) < SCORE_CAP
    ensures best in pool && score(best) <= score(m)
  {
    var i := FirstMinIs(pool, Capped(score));
    var x :| x in pool && score(x) < SCORE_CAP;
    var j :| 0 <= j < |pool| && pool[j] == x;
    var k :| 0 <= k < |pool| && pool[k] == m;
    assert Capped(score)(pool[i]) <= Capped(score)(pool[j]);
    assert Capped(score)(pool[i]) <= Capped(score)(pool[k]);
  }

  /**
   The exchange argument: two scores that differ by a non-negative multiple of the cost, each minimised
   by its own model, can only order the costs one way.
   */
  lemma Exchange(d: real, c1: real, c2: real, r1: real, r2: real)
    requires d > 0.0 && r1 <= r2 && r2 + Mul(d, c2) <= r1 + Mul(d, c1)
    ensures c2 <= c1
  {
    if c1 < c2 {
      MulStrict(c1, c2, d);
    }
  }

  lemma SamePicks(pool: seq<Model>, score: Model -> real, score': Model -> real)
    requires pool != [] && forall m | m in pool :: score'(m) == score(m)
    ensures FirstMin(pool, Capped(score')) == FirstMin(pool, Capped(score))
  {
    FirstMinCong(pool, Capped(score'), Capped(score));
  }

  lemma ExchangePicks(pool: seq<Model>, score: Model -> real, score': Model -> real, cost: Model -> real, d: real,
                      m: Model, m': Model)
    requires pool != [] && d >= 0.0 && forall x | x in pool :: score'(x) == score(x) + Mul(d, cost(x))
    requires (exists x | x in pool :: score(x) < SCORE_CAP) && exists x | x in pool :: score'(x) < SCORE_CAP
    requires m == FirstMin(pool, Capped(score)) && m' == FirstMin(pool, Capped(score'))
    ensures cost(m') <= cost(m)
  {
    if d == 0.0 {
      forall x | x in pool ensures score'(x) == score(x) {
        assert Mul(d, cost(x)) == 0.0;
      }
      SamePicks(pool, score, score');
    } else {
      InPool(pool, Capped(score), m);
      CapTransparent(pool, score', m', m);
      CapTransparent(pool, score, m, m');
      assert score'(m) == score(m) + Mul(d, cost(m));
      assert score'(m') == score(m') + Mul(d, cost(m'));
      Exchange(d, cost(m), cost(m'), score(m), score(m'));
    }
  }

  lemma InPool(pool: seq<Model>, key: Model -> real, m: Model)
    requires pool != [] && m == FirstMin(pool, key)
    ensures m in pool
  {
    var i := FirstMinIs(pool, key);
  }

  function NormCosts(s: Scale, ctx: Request): Model -> real
    requires ProperScale(s)
  {
    m => NormCost(s, EstCost(ctx)(m))
  }

  /** While the pool is the same and some score stays below the cap, spending more makes no choice more expensive. */
  lemma ExchangeBelowCap(w: Weights, norm: Normalizer, ctx: Request, ctx': Request, models: Models)
    requires ctx' == ctx.(budgetUsedEUR := ctx'.budgetUsedEUR) && ctx.budgetUsedEUR <= ctx'.budgetUsedEUR
    requires w.alpha >= 0.0 && w.epsilon >= 0.0
    requires OursPool(norm, ctx', models) == OursPool(norm, ctx, models) != []
    requires var pool := OursPool(norm, ctx, models);
      && (exists m | m in pool :: Score(w, ctx, models, pool)(m) < SCORE_CAP)
      && (exists m | m in pool :: Score(w, ctx', models, pool)(m) < SCORE_CAP)
    ensures EstCost(ctx')(OursPick(w, norm, ctx', models)) <= EstCost(ctx)(OursPick(w, norm, ctx, models))
  {
    var pool, s := OursPool(norm, ctx, models), ScaleOf(ctx, models, OursPool(norm, ctx, models));
    PressureMono(ctx, ctx');
    var d := Surcharge(w, Pressure(ctx') - Pressure(ctx));
    var score, score', cost := Score(w, ctx, models, pool), Score(w, ctx', models, pool), NormCosts(s, ctx);
    forall m | m in pool ensures score'(m) == score(m) + Mul(d, cost(m)) {
      ScoreShift(w, ctx, ctx', models, pool, m);
    }
    ExchangePicks(pool, score, score', cost, d, OursPick(w, norm, ctx, models), OursPick(w, norm, ctx', models));
    NormCostOrder(s, ctx, OursPick(w, norm, ctx', models), OursPick(w, norm, ctx, models));
  }

  /** A score the cap hides from everybody: the scan stays at the first model. */
  lemma AllAboveCap(pool: seq<Model>, score: Model -> real)
    requires pool != [] && forall m | m in pool :: score(m) >= SCORE_CAP
    ensures FirstMin(pool, Capped(score)) == pool[0]
  {
    var i := FirstMinIs(pool, Capped(score));
    assert pool[0] in pool && pool[i] in pool;
    assert Capped(score)(pool[0]) == Capped(score)(pool[i]);
  }

  /** Spending more lowers no score, when costs and weights are not negative. */
  lemma ScoreRises(w: Weights, ctx: Request, ctx': Request, models: Models, pool: seq<Model>, m: Model)
    requires ctx' == ctx.(budgetUsedEUR := ctx'.budgetUsedEUR) && ctx.budgetUsedEUR <= ctx'.budgetUsedEUR
    requires w.alpha >= 0.0 && w.epsilon >= 0.0 && EstCost(ctx)(m) >= 0.0
    ensures Score(w, ctx, models, pool)(m) <= Score(w, ctx', models, pool)(m)
  {
    var s := ScaleOf(ctx, models, pool);
    PressureMono(ctx, ctx');
    ScoreShift(w, ctx, ctx', models, pool, m);
    DivMono(0.0, EstCost(ctx)(m), s.premiumCost);
    MulNonNegative(Surcharge(w, Pressure(ctx') - Pressure(ctx)), NormCosts(s, ctx)(m));
  }

  /**
   While the gated pool is the same, spending more makes Ours choose no more expensive a model exactly when some
   score is still below the cap, or the pool's first model costs no more than the one chosen before.
   */
  lemma BudgetNeverRaisesCost(w: Weights, norm: Normalizer, ctx: Request, ctx': Request, models: Models)
    requires ctx' == ctx.(budgetUsedEUR := ctx'.budgetUsedEUR) && ctx.budgetUsedEUR <= ctx'.budgetUsedEUR
    requires w.alpha >= 0.0 && w.epsilon >= 0.0
    requires OursPool(norm, ctx', models) == OursPool(norm, ctx, models) != []
    requires forall m | m in OursPool(norm, ctx, models) :: EstCost(ctx)(m) >= 0.0
    ensures var pool, before := OursPool(norm, ctx, models), OursPick(w, norm, ctx, models);
      EstCost(ctx')(OursPick(w, norm, ctx', models)) <= EstCost(ctx)(before)
      <==> || (exists m | m in pool :: Score(w, ctx', models, pool)(m) < SCORE_CAP)
           || EstCost(ctx)(pool[0]) <= EstCost(ctx)(before)
  {
    var pool := OursPool(norm, ctx, models);
    if m :| m in pool && Score(w, ctx', models, pool)(m) < SCORE_CAP {
      ScoreRises(w, ctx, ctx', models, pool, m);
      ExchangeBelowCap(w, norm, ctx, ctx', models);
    } else {
      AllAboveCap(pool, Score(w, ctx', models, pool));
    }
  }

  lemma NormCostOrder(s: Scale, ctx: Request, m: Model, m': Model)
    requires ProperScale(s)
    ensures NormCosts(s, ctx)(m) <= NormCosts(s, ctx)(m') ==> EstCost(ctx)(m) <= EstCost(ctx)(m')
  {
    if EstCost(ctx)(m') < EstCost(ctx)(m) {
      DivStrict(EstCost(ctx)(m'), EstCost(ctx)(m), s.premiumCost);
    }
  }

  /** What one unit of normalised cost adds to the score when the pressure rises by dp. */
  function Surcharge(w: Weights, dp: real): (d: real)
    ensures w.alpha >= 0.0 && w.epsilon >= 0.0 && dp >= 0.0 ==> d >= 0.0
  {
    var d := w.alpha * w.epsilon * dp;
    assert w.alpha >= 0.0 && w.epsilon >= 0.0 && dp >= 0.0 ==> d >= 0.0 by {
      if w.alpha >= 0.0 && w.epsilon >= 0.0 && dp >= 0.0 {
        MulNonNegative(w.alpha, w.epsilon);
        MulNonNegative(w.alpha * w.epsilon, dp);
      }
    }
    d
  }

  lemma DivStrict(x: real, y: real, d: real)
    requires x < y && d > 0.0
    ensures x / d < y / d
  {
    QuotientTimes(y, d);
    DivBound(x, d, y / d);
  }

  lemma ScoreShift(w: Weights, ctx: Request, ctx': Request, models: Models, pool: seq<Model>, m: Model)
    requires ctx' == ctx.(budgetUsedEUR := ctx'.budgetUsedEUR)
    ensures Score(w, ctx', models, pool)(m) == Score(w, ctx, models, pool)(m)
         + Mul(Surcharge(w, Pressure(ctx') - Pressure(ctx)), NormCosts(ScaleOf(ctx, models, pool), ctx)(m))
  {
    var s := ScaleOf(ctx, models, pool);
    assert EstCost(ctx')(m) == EstCost(ctx)(m) && ScaleOf(ctx', models, pool) == s.(pressure := Pressure(ctx'));
    ScoreShiftIn(w, s, Pressure(ctx'), ctx, ctx', m);
  }

  lemma ScoreShiftIn(w: Weights, s: Scale, p': real, ctx: Request, ctx': Request, m: Model)
    requires ProperScale(s) && EstCost(ctx')(m) == EstCost(ctx)(m) && ctx'.scenario == ctx.scenario
    ensures ScoreIn(w, s.(pressure := p'), ctx')(m)
         == ScoreIn(w, s, ctx)(m) + Mul(Surcharge(w, p' - s.pressure), NormCosts(s, ctx)(m))
  {
    PressureShift(w, s.pressure, p', NormCost(s, EstCost(ctx)(m)));
  }

  /** Spending more changes the pool exactly when it exhausts the budget and the gate keeps some but not all out. */
  lemma PoolUnchanged(norm: Normalizer, ctx: Request, ctx': Request, models: Models)
    requires ctx' == ctx.(budgetUsedEUR := ctx'.budgetUsedEUR)
    ensures OursPool(norm, ctx', models) == OursPool(norm, ctx, models)
        <==> var ok := Candidates(norm, ctx, models);
             || (Exhausted(ctx) <==> Exhausted(ctx'))
             || GoodEnough(ok, ctx.minQuality) == [] || GoodEnough(ok, ctx.minQuality) == ok
  {
    CompliantSame(norm, ctx, ctx', models, ctx.allowedModels);
  }

  /** A request on which exhausting the budget changes the pool. */
  function TightRequest(used: real): Request {
    Request("", false, ["a", "b"], "p", 0.8, 10.0, used, GLOBAL, 1000000, 0)
  }

  function TightModels(): Models {
    map["p" := Model("p", "", "", "", false, true, 10.0, 0.0, 1.0, 1.0),
        "a" := Model("a", "", "", "", false, true, 1.0, 0.0, 0.8, 1000.0),
        "b" := Model("b", "", "", "", false, true, 1.1, 0.0, 0.79, 1.0)]
  }

  lemma TightCandidates(norm: Normalizer, used: real)
    ensures Candidates(norm, TightRequest(used), TightModels()) == [TightModels()["a"], TightModels()["b"]]
  {
    var ctx, ms := TightRequest(used), TightModels();
    assert !Violates(norm, ms["a"], GLOBAL, false) && !Violates(norm, ms["b"], GLOBAL, false);
    assert ["a", "b"][1..] == ["b"] && ["b"][1..] == [];
    assert Compliant(norm, ctx, ms, ["b"]) == [ms["b"]];
    assert Compliant(norm, ctx, ms, ["a", "b"]) == [ms["a"], ms["b"]];
    var s := [ms["a"], ms["b"]];
    assert s[1..] == [ms["b"]] && s[1..][1..] == [];
    assert Sort(s[1..], IdLe) == [ms["b"]];
    assert IdLe(ms["a"], ms["b"]);
  }

  /**
   The pool must be the same: when the budget runs out the gate opens, and the choice, meant to degrade
   to a cheaper model, can become a more expensive one that the gate kept out.
   */
  lemma ExhaustionMayRaiseCost(norm: Normalizer)
    ensures OursPool(norm, TightRequest(0.0), TightModels()) != []
    ensures OursPool(norm, TightRequest(10.0), TightModels()) != []
    ensures EstCost(TightRequest(0.0))(OursPick(DEFAULT_WEIGHTS, norm, TightRequest(0.0), TightModels())) == 1.0
    ensures EstCost(TightRequest(10.0))(OursPick(DEFAULT_WEIGHTS, norm, TightRequest(10.0), TightModels())) == 1.1
  {
    TightBefore(norm);
    TightAfter(norm);
  }

  lemma TightBefore(norm: Normalizer)
    ensures OursPool(norm, TightRequest(0.0), TightModels()) == [TightModels()["a"]]
  {
    TightCandidates(norm, 0.0);
    FirstGoodEnough(TightModels()["a"], TightModels()["b"], 0.8);
  }

  lemma FirstGoodEnough(a: Model, b: Model, quality: real)
    requires a.qualityPrior >= quality > b.qualityPrior
    ensures GoodEnough([a, b], quality) == [a]
  {
    assert [a, b][..1] == [a] && [a][..0] == [];
    assert GoodEnough([a], quality) == GoodEnough([], quality) + [a];
  }

  lemma TwoLatencies(a: Model, b: Model)
    ensures MaxLatency([a, b]) == Max(Max(1.0, a.latencyPriorMS), b.latencyPriorMS)
  {
    assert [a, b][..1] == [a] && [a][..0] == [];
    assert MaxLatency([a]) == Max(MaxLatency([]), a.latencyPriorMS);
  }

  lemma TightScale(a: Model, b: Model)
    requires a == TightModels()["a"] && b == TightModels()["b"]
    ensures ScaleOf(TightRequest(10.0), TightModels(), [a, b]) == Scale(10.0, 1.0, 1.0, 1000.0)
  {
    TwoLatencies(a, b);
  }

  /** The first of two models whose scores are in reverse order, both below the cap, loses. */
  lemma SecondLower(a: Model, b: Model, key: Model -> real)
    requires key(b) < key(a) < SCORE_CAP
    ensures FirstMin([a, b], Capped(key)) == b
  {
    assert [a, b][..1] == [a];
  }

  lemma TightChoice(a: Model, b: Model)
    requires a == TightModels()["a"] && b == TightModels()["b"]
    ensures FirstMin([a, b], Capped(Score(DEFAULT_WEIGHTS, TightRequest(10.0), TightModels(), [a, b]))) == b
  {
    TightScale(a, b);
    TightScores(TightRequest(10.0));
    SecondLower(a, b, Score(DEFAULT_WEIGHTS, TightRequest(10.0), TightModels(), [a, b]));
  }

  lemma TightAfter(norm: Normalizer)
    ensures OursPool(norm, TightRequest(10.0), TightModels()) == [TightModels()["a"], TightModels()["b"]]
    ensures OursPick(DEFAULT_WEIGHTS, norm, TightRequest(10.0), TightModels()) == TightModels()["b"]
  {
    TightCandidates(norm, 10.0);
    TightChoice(TightModels()["a"], TightModels()["b"]);
  }

  lemma TightScores(ctx: Request)
    requires ctx == TightRequest(10.0)
    ensures var score := ScoreIn(DEFAULT_WEIGHTS, Scale(10.0, 1.0, 1.0, 1000.0), ctx);
      score(TightModels()["a"]) == 0.8 && score(TightModels()["b"]) == 0.5353
  {
    var s, w := Scale(10.0, 1.0, 1.0, 1000.0), DEFAULT_WEIGHTS;
    var a, b := TightModels()["a"], TightModels()["b"];
    assert EstCost(ctx)(a) == 1.0 && EstCost(ctx)(b) == 1.1;
    assert NormCost(s, 1.0) == 0.1 && NormCost(s, 1.1) == 0.11;
    assert CostScore(w, 1.0, 0.1) == 0.2 && CostScore(w, 1.0, 0.11) == 0.22;
    assert QualityLoss(s, 0.8) == 0.2 && QualityLoss(s, 0.79) == 0.21;
    assert BaseScore(w, s, 0.8, 1000.0, 0.0) == 0.6;
    assert BaseScore(w, s, 0.79, 1.0, 0.0) == 0.3153;
  }

  // ---------- cost against the premium model ----------

  lemma PremiumBound(alpha: real, k: real, c: real, rest: real, slack: real, scored: real, premium: real)
    requires alpha > 0.0 && k >= 1.0 && rest >= 0.0 && slack >= 0.0
    requires scored == alpha * c * k && premium == alpha * 1.0 * k
    requires scored + rest <= premium + slack
    ensures c <= 1.0 + slack / alpha
  {
    if c > 1.0 {
      var e := Mul(alpha, c - 1.0);
      MulNonNegative(alpha, c - 1.0);
      MulMono(1.0, k, e);
      assert Mul(k, e) == alpha * c * k - alpha * 1.0 * k;
      assert e <= slack;
      DivBound(slack, alpha, c - 1.0);
    } else {
      DivMono(0.0, slack, alpha);
    }
  }

  predicate NonNegativeWeights(w: Weights) {
    w.alpha > 0.0 && w.beta >= 0.0 && w.gamma >= 0.0 && w.delta >= 0.0 && w.epsilon >= 0.0
  }

  lemma BaseNonNegative(w: Weights, s: Scale, quality: real, latency: real, risk: real)
    requires NonNegativeWeights(w) && ProperScale(s) && latency >= 0.0 && risk >= 0.0
    ensures BaseScore(w, s, quality, latency, risk) >= 0.0
  {
    MulNonNegative(w.beta, QualityLoss(s, quality));
    DivMono(0.0, latency, s.maxLatency);
    MulNonNegative(w.gamma, latency / s.maxLatency);
    MulNonNegative(w.delta, risk);
    assert BaseScore(w, s, quality, latency, risk)
      == Mul(w.beta, QualityLoss(s, quality)) + Mul(w.gamma, latency / s.maxLatency) + Mul(w.delta, risk);
  }

  /** The premium model loses no quality, and at most the whole latency and risk terms. */
  lemma PremiumBase(w: Weights, s: Scale, quality: real, latency: real, risk: real)
    requires NonNegativeWeights(w) && ProperScale(s) && quality == s.premiumQuality
    requires latency <= s.maxLatency && risk <= 1.0
    ensures BaseScore(w, s, quality, latency, risk) <= w.gamma + w.delta
  {
    assert QualityLoss(s, quality) == 0.0;
    DivBound(latency, s.maxLatency, 1.0);
    MulMono(latency / s.maxLatency, 1.0, w.gamma);
    MulMono(risk, 1.0, w.delta);
    assert BaseScore(w, s, quality, latency, risk) == w.beta * 0.0 + Mul(latency / s.maxLatency, w.gamma) + Mul(risk, w.delta);
  }

  lemma PressureFactor(ctx: Request, epsilon: real)
    requires ctx.budgetUsedEUR >= 0.0 && epsilon >= 0.0
    ensures 1.0 + epsilon * Pressure(ctx) >= 1.0
  {
    if ctx.budgetTotalEUR > 0.0 {
      DivMono(0.0, ctx.budgetUsedEUR, ctx.budgetTotalEUR);
    }
    MulNonNegative(epsilon, Pressure(ctx));
    assert epsilon * Pressure(ctx) == Mul(epsilon, Pressure(ctx));
  }

  /** The premium model competes with a positive cost and quality, and no model of the pool has a negative latency. */
  ghost predicate PremiumCompetes(norm: Normalizer, ctx: Request, models: Models) {
    var pool, premium := OursPool(norm, ctx, models), Lookup(models, ctx.premiumModel);
    && premium in pool && EstCost(ctx)(premium) > 0.0 && premium.qualityPrior > 0.0
    && forall m | m in pool :: m.latencyPriorMS >= 0.0
  }

  /** Where some score is below the cap, Ours pays at most (1 + (gamma + delta)/alpha) times the premium cost. */
  lemma CostBoundBelowCap(w: Weights, norm: Normalizer, ctx: Request, models: Models)
    requires NonNegativeWeights(w) && ctx.budgetUsedEUR >= 0.0 && PremiumCompetes(norm, ctx, models)
    requires var pool := OursPool(norm, ctx, models); exists m | m in pool :: Score(w, ctx, models, pool)(m) < SCORE_CAP
    ensures EstCost(ctx)(OursPick(w, norm, ctx, models))
         <= Mul(1.0 + (w.gamma + w.delta) / w.alpha, EstCost(ctx)(Lookup(models, ctx.premiumModel)))
  {
    var pool := OursPool(norm, ctx, models);
    var premium, best := Lookup(models, ctx.premiumModel), OursPick(w, norm, ctx, models);
    CapTransparent(pool, Score(w, ctx, models, pool), best, premium);
    ScoreBound(w, ScaleOf(ctx, models, pool), ctx, best, premium);
  }

  lemma PremiumScore(w: Weights, s: Scale, ctx: Request, premium: Model)
    requires NonNegativeWeights(w) && ProperScale(s) && s.pressure == Pressure(ctx)
    requires EstCost(ctx)(premium) == s.premiumCost && premium.qualityPrior == s.premiumQuality
    requires premium.latencyPriorMS <= s.maxLatency
    ensures ScoreIn(w, s, ctx)(premium) <= w.alpha * (1.0 + w.epsilon) + w.gamma + w.delta
  {
    PremiumBase(w, s, premium.qualityPrior, premium.latencyPriorMS, SovereigntyRisk(ctx, premium));
    QuotientIs(s.premiumCost, s.premiumCost, 1.0);
    PressureAtMostOne(ctx);
    MulMono(s.pressure, 1.0, w.epsilon);
    MulMono(1.0 + Mul(s.pressure, w.epsilon), 1.0 + w.epsilon, w.alpha);
    assert CostScore(w, s.pressure, 1.0) == Mul(1.0 + Mul(s.pressure, w.epsilon), w.alpha);
  }

  lemma PressureAtMostOne(ctx: Request)
    ensures Pressure(ctx) <= 1.0
  {
  }

  /** With weights of any ordinary size Ours pays at most (1 + (gamma + delta)/alpha) times the premium cost. */
  lemma OursCostBound(w: Weights, norm: Normalizer, ctx: Request, models: Models)
    requires NonNegativeWeights(w) && ctx.budgetUsedEUR >= 0.0 && PremiumCompetes(norm, ctx, models)
    requires w.alpha * (1.0 + w.epsilon) + w.gamma + w.delta < SCORE_CAP
    ensures EstCost(ctx)(OursPick(w, norm, ctx, models))
         <= Mul(1.0 + (w.gamma + w.delta) / w.alpha, EstCost(ctx)(Lookup(models, ctx.premiumModel)))
  {
    var pool := OursPool(norm, ctx, models);
    PremiumScore(w, ScaleOf(ctx, models, pool), ctx, Lookup(models, ctx.premiumModel));
    CostBoundBelowCap(w, norm, ctx, models);
  }

  lemma ScoreBound(w: Weights, s: Scale, ctx: Request, best: Model, premium: Model)
    requires NonNegativeWeights(w) && ctx.budgetUsedEUR >= 0.0 && ProperScale(s) && s.pressure == Pressure(ctx)
    requires EstCost(ctx)(premium) == s.premiumCost && premium.qualityPrior == s.premiumQuality
    requires best.latencyPriorMS >= 0.0 && premium.latencyPriorMS <= s.maxLatency
    requires ScoreIn(w, s, ctx)(best) <= ScoreIn(w, s, ctx)(premium)
    ensures EstCost(ctx)(best) <= Mul(1.0 + (w.gamma + w.delta) / w.alpha, EstCost(ctx)(premium))
  {
    BaseNonNegative(w, s, best.qualityPrior, best.latencyPriorMS, SovereigntyRisk(ctx, best));
    PremiumBase(w, s, premium.qualityPrior, premium.latencyPriorMS, SovereigntyRisk(ctx, premium));
    PressureFactor(ctx, w.epsilon);
    QuotientIs(s.premiumCost, s.premiumCost, 1.0);
    PremiumBound(w.alpha, 1.0 + w.epsilon * s.pressure, NormCost(s, EstCost(ctx)(best)),
                 BaseScore(w, s, best.qualityPrior, best.latencyPriorMS, SovereigntyRisk(ctx, best)),
                 w.gamma + w.delta,
                 CostScore(w, s.pressure, NormCost(s, EstCost(ctx)(best))), CostScore(w, s.pressure, 1.0));
    DivBound(EstCost(ctx)(best), s.premiumCost, 1.0 + (w.gamma + w.delta) / w.alpha);
  }

  // ---------- the other strategies ----------

  /** Least cost serves the smallest-ID cheapest candidate. */
  lemma LeastCostMinimises(norm: Normalizer, ctx: Request, models: Models)
    requires Keyed(models)
    ensures ChooseLeastCost(norm, ctx, models).blocked <==> Candidates(norm, ctx, models) == []
    ensures !ChooseLeastCost(norm, ctx, models).blocked ==>
              exists m :: m in Candidates(norm, ctx, models) && ChooseLeastCost(norm, ctx, models).modelID == m.id
                && ChooseLeastCost(norm, ctx, models).expectedCostEUR == EstCost(ctx)(m)
                && (forall x | x in Candidates(norm, ctx, models) :: EstCost(ctx)(m) <= EstCost(ctx)(x))
                && (forall x | x in Candidates(norm, ctx, models) && EstCost(ctx)(x) == EstCost(ctx)(m) :: StrLe(m.id, x.id))
  {
    if Candidates(norm, ctx, models) != [] {
      CandidatesSorted(norm, ctx, models);
      FirstMinSmallestID(Candidates(norm, ctx, models), EstCost(ctx));
    }
  }

  /** m is the cheapest of the models that meet the difficulty, or the best of all when none does; smallest ID on ties. */
  ghost predicate IsDifficultyPick(ok: seq<Model>, difficulty: real, cost: Model -> real, m: Model) {
    && m in ok
    && (forall x | x in ok && x.qualityPrior >= difficulty ::
          && m.qualityPrior >= difficulty && cost(m) <= cost(x)
          && (cost(x) == cost(m) ==> StrLe(m.id, x.id)))
    && (m.qualityPrior < difficulty ==>
          forall x | x in ok ::
            x.qualityPrior <= m.qualityPrior && (x.qualityPrior == m.qualityPrior ==> StrLe(m.id, x.id)))
  }

  lemma StrongPick(ok: seq<Model>, difficulty: real, cost: Model -> real)
    requires SortedBy(ok, IdLe) && GoodEnough(ok, difficulty) != []
    ensures IsDifficultyPick(ok, difficulty, cost, FirstMin(GoodEnough(ok, difficulty), cost))
  {
    GoodEnoughSorted(ok, difficulty);
    FirstMinSmallestID(GoodEnough(ok, difficulty), cost);
    forall x ensures x in GoodEnough(ok, difficulty) <==> x in ok && x.qualityPrior >= difficulty {
      GoodEnoughMember(ok, difficulty, x);
    }
  }

  lemma WeakPick(ok: seq<Model>, difficulty: real, cost: Model -> real)
    requires ok != [] && SortedBy(ok, IdLe) && GoodEnough(ok, difficulty) == []
    ensures IsDifficultyPick(ok, difficulty, cost, FirstMin(ok, LostQuality()))
  {
    var m := FirstMin(ok, LostQuality());
    FirstMinSmallestID(ok, LostQuality());
    forall x | x in ok ensures x.qualityPrior < difficulty {
      GoodEnoughMember(ok, difficulty, x);
    }
    forall x | x in ok
      ensures x.qualityPrior <= m.qualityPrior && (x.qualityPrior == m.qualityPrior ==> StrLe(m.id, x.id))
    {
      assert LostQuality()(m) <= LostQuality()(x);
    }
  }

  /** The difficulty router serves a cheapest candidate among those good enough, else a best one. */
  lemma DifficultyChoice(norm: Normalizer, ctx: Request, models: Models) returns (m: Model)
    ensures ChooseDifficulty(norm, ctx, models).blocked <==> Candidates(norm, ctx, models) == []
    ensures !ChooseDifficulty(norm, ctx, models).blocked ==>
              && ChooseDifficulty(norm, ctx, models).modelID == m.id
              && ChooseDifficulty(norm, ctx, models).expectedCostEUR == EstCost(ctx)(m)
              && IsDifficultyPick(Candidates(norm, ctx, models), Difficulty(ctx), EstCost(ctx), m)
  {
    var ok, difficulty := Candidates(norm, ctx, models), Difficulty(ctx);
    m := ZERO_MODEL;
    if ok != [] {
      CandidatesSorted(norm, ctx, models);
      if GoodEnough(ok, difficulty) != [] {
        m := FirstMin(GoodEnough(ok, difficulty), EstCost(ctx));
        StrongPick(ok, difficulty, EstCost(ctx));
      } else {
        m := FirstMin(ok, LostQuality());
        WeakPick(ok, difficulty, EstCost(ctx));
      }
    }
  }

  lemma MultipleAtLeast(l: int, k: int)
    requires l > 0 && k >= 1
    ensures l * k >= l
  {
    assert l * k == l + l * (k - 1);
  }

  lemma ModIs(x: int, l: int, q: int, c: int)
    requires 0 <= c < l && x == l * q + c
    ensures x % l == c
  {
    var k := q - x / l;
    assert l * k == x % l - c;
    if k >= 1 {
      MultipleAtLeast(l, k);
    } else if k <= -1 {
      MultipleAtLeast(l, -k);
    }
  }

  /** As many consecutive calls as there are candidates serve each candidate, so exactly once. */
  lemma RoundRobinVisitsAll(n: nat, norm: Normalizer, ctx: Request, models: Models, m: Model) returns (i: nat)
    requires m in Candidates(norm, ctx, models)
    ensures i < |Candidates(norm, ctx, models)|
    ensures ChooseRoundRobin(n + i, norm, ctx, models) == Chosen(ctx, m, RejectedIDs(norm, ctx, models), false)
  {
    var ok := Candidates(norm, ctx, models);
    var c: nat :| c < |ok| && ok[c] == m;
    i := TurnOf(n, |ok|, c);
  }

  lemma TurnOf(n: nat, l: nat, c: nat) returns (i: nat)
    requires c < l
    ensures i < l && (n + i) % l == c
  {
    var r, q := n % l, n / l;
    assert n == l * q + r;
    if c >= r {
      i := c - r;
      ModIs(n + i, l, q, c);
    } else {
      i := c - r + l;
      assert l * (q + 1) == l * q + l;
      ModIs(n + i, l, q + 1, c);
    }
  }

  /** Every model served by a filtering strategy is allowed, in the catalog and compliant. */
  lemma FilteredChoiceComplies(n: nat, w: Weights, norm: Normalizer, ctx: Request, models: Models, d: Decision)
    requires Keyed(models) && !d.blocked
    requires d in {ChooseRoundRobin(n, norm, ctx, models), ChooseLeastCost(norm, ctx, models),
                   ChooseDifficulty(norm, ctx, models), ChooseOurs(w, norm, ctx, models)}
    ensures d.modelID in ctx.allowedModels && Complies(norm, ctx, models, d.modelID)
  {
    var ok := Candidates(norm, ctx, models);
    assert ok != [];
    LeastCostMinimises(norm, ctx, models);
    var difficult := DifficultyChoice(norm, ctx, models);
    OursMinimises(w, norm, ctx, models);
    if d == ChooseRoundRobin(n, norm, ctx, models) {
      CandidateMember(norm, ctx, models, ok[n % |ok|]);
    } else if d == ChooseOurs(w, norm, ctx, models) {
      PoolMember(norm, ctx, models, OursPick(w, norm, ctx, models));
    } else {
      var m :| m in ok && d.modelID == m.id;
      CandidateMember(norm, ctx, models, m);
    }
  }

  // ---------- scenarios ----------

  /**
   Who may not serve under the five scenarios, whether or not a request is sensitive unless that is said: nobody
   is refused by global; eu-only takes the zone EU and fourteen member states; france-only and self-hosted-only take
   FR; managed providers are refused for sensitive requests by the last two.
   */
  lemma WhoViolates(norm: Normalizer, m: Model, sensitive: bool)
    requires FixesCodes(norm)
    ensures !Violates(norm, m, GLOBAL, sensitive)
    ensures Violates(norm, m, EU_ONLY, sensitive) <==>
            norm(m.zone) !in {"EU", "FR", "DE", "ES", "IT", "NL", "BE", "LU", "IE", "PT", "AT", "FI", "SE", "DK", "PL"}
    ensures Violates(norm, m, FRANCE_ONLY, sensitive) <==> norm(m.zone) != "FR"
    ensures Violates(norm, m, NO_EXTERNAL, sensitive) <==> sensitive && m.managed
    ensures Violates(norm, m, SELF_HOSTED, sensitive) <==> norm(m.zone) != "FR" || (sensitive && m.managed)
  {
    assert ZoneAllowed(norm, norm(m.zone), ["FR"]) <==> norm(m.zone) == "FR" by {
      assert "FR" in ["FR"];
    }
    assert ZoneAllowed(norm, norm(m.zone), ["EU"]) <==> norm(m.zone) == "EU" || norm(m.zone) in EU_MEMBERS by {
      assert "EU" in ["EU"];
    }
  }

  /** Forbidding one zone more rules out the models in it as well, and allowing one more lets in those in it, or in the EU. */
  lemma OneZoneMore(norm: Normalizer, m: Model, s: Scenario, z: string, sensitive: bool)
    ensures Violates(norm, m, s.(forbiddenZones := s.forbiddenZones + [z]), sensitive)
       <==> Violates(norm, m, s, sensitive) || norm(z) == norm(m.zone)
    ensures s.allowedZones != [] && s.forbiddenZones == [] && s.externalProvidersAllowed ==>
              (Violates(norm, m, s.(allowedZones := s.allowedZones + [z]), sensitive)
               <==> Violates(norm, m, s, sensitive) && norm(z) != norm(m.zone)
                    && !(norm(z) == "EU" && norm(m.zone) in EU_MEMBERS))
  {
    forall f ensures f in s.forbiddenZones + [z] <==> f in s.forbiddenZones || f == z {
    }
    forall a ensures a in s.allowedZones + [z] <==> a in s.allowedZones || a == z {
    }
  }

  /** Along the chain every scenario refuses at least what the one before it does. */
  lemma ScenariosNarrow(norm: Normalizer, m: Model, sensitive: bool)
    requires FixesCodes(norm)
    ensures !Violates(norm, m, GLOBAL, sensitive)
    ensures Violates(norm, m, EU_ONLY, sensitive) ==> Violates(norm, m, FRANCE_ONLY, sensitive)
    ensures Violates(norm, m, FRANCE_ONLY, sensitive) ==> Violates(norm, m, SELF_HOSTED, sensitive)
    ensures Violates(norm, m, NO_EXTERNAL, sensitive) ==> Violates(norm, m, SELF_HOSTED, sensitive)
  {
    WhoViolates(norm, m, sensitive);
  }

  // ---------- dominance ----------

  lemma CostScoreStrict(w: Weights, pressure: real, c: real, c': real)
    requires w.alpha > 0.0 && 1.0 + w.epsilon * pressure >= 1.0 && c < c'
    ensures CostScore(w, pressure, c) < CostScore(w, pressure, c')
  {
    MulStrict(c, c', w.alpha);
    MulStrict(Mul(c, w.alpha), Mul(c', w.alpha), 1.0 + w.epsilon * pressure);
  }

  lemma BaseScoreMonotone(w: Weights, s: Scale, q: real, l: real, r: real, q': real, l': real, r': real)
    requires NonNegativeWeights(w) && ProperScale(s) && q >= q' && l <= l' && r <= r'
    ensures BaseScore(w, s, q, l, r) <= BaseScore(w, s, q', l', r')
  {
    DivMono(s.premiumQuality - q, s.premiumQuality - q', s.premiumQuality);
    DivMono(l, l', s.maxLatency);
    MulMono(QualityLoss(s, q), QualityLoss(s, q'), w.beta);
    MulMono(l / s.maxLatency, l' / s.maxLatency, w.gamma);
    MulMono(r, r', w.delta);
    BaseScoreProducts(w, s, q, l, r);
    BaseScoreProducts(w, s, q', l', r');
  }

  lemma BaseScoreProducts(w: Weights, s: Scale, q: real, l: real, r: real)
    requires ProperScale(s)
    ensures BaseScore(w, s, q, l, r) == Mul(QualityLoss(s, q), w.beta) + Mul(l / s.maxLatency, w.gamma) + Mul(r, w.delta)
  {
  }

  /** A model that is cheaper and no worse in anything else scores lower. */
  lemma DominatingScoresLower(w: Weights, s: Scale, ctx: Request, m: Model, m': Model)
    requires NonNegativeWeights(w) && ProperScale(s) && ctx.budgetUsedEUR >= 0.0 && s.pressure == Pressure(ctx)
    requires EstCost(ctx)(m) < EstCost(ctx)(m') && m.qualityPrior >= m'.qualityPrior
    requires m.latencyPriorMS <= m'.latencyPriorMS && SovereigntyRisk(ctx, m) <= SovereigntyRisk(ctx, m')
    ensures ScoreIn(w, s, ctx)(m) < ScoreIn(w, s, ctx)(m')
  {
    PressureFactor(ctx, w.epsilon);
    DivStrict(EstCost(ctx)(m), EstCost(ctx)(m'), s.premiumCost);
    CostScoreStrict(w, s.pressure, NormCost(s, EstCost(ctx)(m)), NormCost(s, EstCost(ctx)(m')));
    BaseScoreMonotone(w, s, m.qualityPrior, m.latencyPriorMS, SovereigntyRisk(ctx, m),
                      m'.qualityPrior, m'.latencyPriorMS, SovereigntyRisk(ctx, m'));
  }

  /**
   Against a model of its pool that is no worse in quality, latency and sovereignty risk, Ours does not pay more,
   exactly when some score is below the cap or the pool's first model is no dearer than that model.
   */
  lemma OursUndominated(w: Weights, norm: Normalizer, ctx: Request, models: Models, m: Model)
    requires NonNegativeWeights(w) && ctx.budgetUsedEUR >= 0.0 && m in OursPool(norm, ctx, models)
    requires var best := OursPick(w, norm, ctx, models);
      && m.qualityPrior >= best.qualityPrior && m.latencyPriorMS <= best.latencyPriorMS
      && SovereigntyRisk(ctx, m) <= SovereigntyRisk(ctx, best)
    ensures var pool := OursPool(norm, ctx, models);
      EstCost(ctx)(OursPick(w, norm, ctx, models)) <= EstCost(ctx)(m)
      <==> || (exists x | x in pool :: Score(w, ctx, models, pool)(x) < SCORE_CAP)
           || EstCost(ctx)(pool[0]) <= EstCost(ctx)(m)
  {
    var pool, best := OursPool(norm, ctx, models), OursPick(w, norm, ctx, models);
    if x :| x in pool && Score(w, ctx, models, pool)(x) < SCORE_CAP {
      CapTransparent(pool, Score(w, ctx, models, pool), best, m);
      if EstCost(ctx)(m) < EstCost(ctx)(best) {
        DominatingScoresLower(w, ScaleOf(ctx, models, pool), ctx, m, best);
      }
    } else {
      AllAboveCap(pool, Score(w, ctx, models, pool));
    }
  }

  /** A decision of Ours is no fallback exactly when premium serves and meets the quality or the budget is gone. */
  lemma OursFallback(w: Weights, norm: Normalizer, ctx: Request, models: Models)
    requires Keyed(models) && !ChooseOurs(w, norm, ctx, models).blocked
    ensures ChooseOurs(w, norm, ctx, models).modelID in models
    ensures var d := ChooseOurs(w, norm, ctx, models);
      !d.fallback <==> d.modelID == ctx.premiumModel && (Exhausted(ctx) || models[d.modelID].qualityPrior >= ctx.minQuality)
  {
    OursMinimises(w, norm, ctx, models);
    var ok, pick := Candidates(norm, ctx, models), OursPick(w, norm, ctx, models);
    PoolMember(norm, ctx, models, pick);
    GoodEnoughMember(ok, ctx.minQuality, pick);
    CandidateMember(norm, ctx, models, pick);
  }

  /** The model the static policy wants for a request. */
  function StaticWish(ctx: Request, models: Models): Model {
    Lookup(models, StaticPick(ctx))
  }

  /**
   The static policy serves a model the scenario allows, unless it wants a model the catalog does not have: then
   it serves whatever the catalog lists without an ID.
   */
  lemma StaticComplies(norm: Normalizer, ctx: Request, models: Models)
    requires Keyed(models) && !ChooseStatic(norm, ctx, models).blocked
    ensures Violates(norm, Lookup(models, ChooseStatic(norm, ctx, models).modelID), ctx.scenario, ctx.sensitive)
        <==> && StaticPick(ctx) !in models && !Violates(norm, ZERO_MODEL, ctx.scenario, ctx.sensitive)
             && Violates(norm, Lookup(models, ""), ctx.scenario, ctx.sensitive)
  {
    var ok := Candidates(norm, ctx, models);
    if ok != [] {
      CandidateMember(norm, ctx, models, ok[0]);
    }
  }

  /** It stays inside the allowed list exactly when the model it wants is in it or is refused by the scenario. */
  lemma StaticStaysAllowed(norm: Normalizer, ctx: Request, models: Models)
    requires Keyed(models) && !ChooseStatic(norm, ctx, models).blocked
    ensures ChooseStatic(norm, ctx, models).modelID in ctx.allowedModels
        <==> || StaticWish(ctx, models).id in ctx.allowedModels
             || Violates(norm, StaticWish(ctx, models), ctx.scenario, ctx.sensitive)
  {
    var ok := Candidates(norm, ctx, models);
    if ok != [] {
      CandidateMember(norm, ctx, models, ok[0]);
    }
  }

  /** A witness: an agent request is served by gpt-4o though nothing is allowed. */
  lemma StaticIgnoresAllowed(norm: Normalizer)
    ensures var m := ZERO_MODEL.(id := "gpt-4o");
      var ctx := Request("agent", false, [], "gpt-4o", 0.0, 0.0, 0.0, GLOBAL, 1, 1);
      var d := ChooseStatic(norm, ctx, map["gpt-4o" := m]);
      !d.blocked && d.modelID == "gpt-4o" && d.modelID !in ctx.allowedModels
  {
  }

  // ---------- the cap ----------

  /** Weights that put the score of every model of the tight catalog above the cap. */
  const STEEP_WEIGHTS := Weights(100.0 * SCORE_CAP, 0.0, 0.0, 0.0, 0.0)

  /** The tight request with its gate open and its catalog with the dearer model first by ID. */
  function SteepModels(): Models {
    map["p" := Model("p", "", "", "", false, true, 10.0, 0.0, 1.0, 1.0),
        "a" := Model("a", "", "", "", false, true, 2.0, 0.0, 1.0, 1.0),
        "b" := Model("b", "", "", "", false, true, 1.0, 0.0, 1.0, 1.0)]
  }

  /** Two models that both score the cap or more are not told apart: the first wins. */
  lemma FirstAboveCap(a: Model, b: Model, key: Model -> real)
    requires key(a) >= SCORE_CAP && key(b) >= SCORE_CAP
    ensures FirstMin([a, b], Capped(key)) == a
  {
    assert [a, b][..1] == [a];
  }

  lemma SteepCandidates(norm: Normalizer)
    ensures Candidates(norm, TightRequest(0.0), SteepModels()) == [SteepModels()["a"], SteepModels()["b"]]
  {
    var ctx, ms := TightRequest(0.0), SteepModels();
    assert !Violates(norm, ms["a"], GLOBAL, false) && !Violates(norm, ms["b"], GLOBAL, false);
    assert ["a", "b"][1..] == ["b"] && ["b"][1..] == [];
    assert Compliant(norm, ctx, ms, ["b"]) == [ms["b"]];
    assert Compliant(norm, ctx, ms, ["a", "b"]) == [ms["a"], ms["b"]];
    var s := [ms["a"], ms["b"]];
    assert s[1..] == [ms["b"]] && s[1..][1..] == [];
    assert Sort(s[1..], IdLe) == [ms["b"]];
    assert IdLe(ms["a"], ms["b"]);
  }

  lemma SteepPool(norm: Normalizer)
    ensures OursPool(norm, TightRequest(0.0), SteepModels()) == [SteepModels()["a"], SteepModels()["b"]]
  {
    SteepCandidates(norm);
    BothGoodEnough(SteepModels()["a"], SteepModels()["b"], 0.8);
  }

  lemma BothGoodEnough(a: Model, b: Model, quality: real)
    requires a.qualityPrior >= quality && b.qualityPrior >= quality
    ensures GoodEnough([a, b], quality) == [a, b]
  {
    assert [a, b][..1] == [a] && [a][..0] == [];
    assert GoodEnough([a], quality) == GoodEnough([], quality) + [a];
  }

  lemma SteepScore(s: Scale, ctx: Request, m: Model)
    requires ProperScale(s) && s.premiumCost == 10.0 && s.pressure == 0.0
    ensures ScoreIn(STEEP_WEIGHTS, s, ctx)(m) == 10.0 * SCORE_CAP * EstCost(ctx)(m)
  {
    SteepProducts(EstCost(ctx)(m), QualityLoss(s, m.qualityPrior), m.latencyPriorMS / s.maxLatency, SovereigntyRisk(ctx, m));
  }

  lemma SteepProducts(cost: real, loss: real, latency: real, risk: real)
    ensures 100.0 * SCORE_CAP * (cost / 10.0) * (1.0 + 0.0 * 0.0) == 10.0 * SCORE_CAP * cost
    ensures 0.0 * loss + 0.0 * latency + 0.0 * risk == 0.0
  {
  }

  lemma SteepScale(pool: seq<Model>)
    ensures ScaleOf(TightRequest(0.0), SteepModels(), pool).premiumCost == 10.0
    ensures ScaleOf(TightRequest(0.0), SteepModels(), pool).pressure == 0.0
    ensures EstCost(TightRequest(0.0))(SteepModels()["a"]) == 2.0 && EstCost(TightRequest(0.0))(SteepModels()["b"]) == 1.0
  {
  }

  lemma SteepScores(pool: seq<Model>)
    ensures var score := Score(STEEP_WEIGHTS, TightRequest(0.0), SteepModels(), pool);
      && score(SteepModels()["a"]) == 20.0 * SCORE_CAP && score(SteepModels()["b"]) == 10.0 * SCORE_CAP
  {
    var ctx, a, b := TightRequest(0.0), SteepModels()["a"], SteepModels()["b"];
    SteepScale(pool);
    SteepScore(ScaleOf(ctx, SteepModels(), pool), ctx, a);
    SteepScore(ScaleOf(ctx, SteepModels(), pool), ctx, b);
  }

  /** With every score above the cap the choice need not minimise: here the second model scores half as much. */
  lemma CapMayHideMinimum(norm: Normalizer)
    ensures OursPool(norm, TightRequest(0.0), SteepModels()) == [SteepModels()["a"], SteepModels()["b"]]
    ensures OursPick(STEEP_WEIGHTS, norm, TightRequest(0.0), SteepModels()) == SteepModels()["a"]
    ensures var pool := OursPool(norm, TightRequest(0.0), SteepModels());
      var score := Score(STEEP_WEIGHTS, TightRequest(0.0), SteepModels(), pool);
      score(SteepModels()["b"]) < score(SteepModels()["a"])
  {
    SteepPool(norm);
    var a, b := SteepModels()["a"], SteepModels()["b"];
    SteepScores([a, b]);
    FirstAboveCap(a, b, Score(STEEP_WEIGHTS, TightRequest(0.0), SteepModels(), [a, b]));
  }

  /** Weights under which a rising pressure lifts the last score above the cap. */
  const RISING_WEIGHTS := Weights(6.0 * SCORE_CAP, 0.0, 0.0, 0.0, 1.0)

  lemma RisingProducts(cost: real, pressure: real, loss: real, latency: real, risk: real)
    ensures 6.0 * SCORE_CAP * (cost / 10.0) * (1.0 + 1.0 * pressure) == 0.6 * SCORE_CAP * Mul(cost, 1.0 + pressure)
    ensures 0.0 * loss + 0.0 * latency + 0.0 * risk == 0.0
  {
  }

  lemma RisingScore(s: Scale, ctx: Request, m: Model)
    requires ProperScale(s) && s.premiumCost == 10.0
    ensures ScoreIn(RISING_WEIGHTS, s, ctx)(m) == 0.6 * SCORE_CAP * Mul(EstCost(ctx)(m), 1.0 + s.pressure)
  {
    RisingProducts(EstCost(ctx)(m), s.pressure, QualityLoss(s, m.qualityPrior), m.latencyPriorMS / s.maxLatency,
                   SovereigntyRisk(ctx, m));
  }

  lemma RisingPool(norm: Normalizer)
    ensures OursPool(norm, TightRequest(9.0), SteepModels()) == OursPool(norm, TightRequest(0.0), SteepModels())
  {
    CompliantSame(norm, TightRequest(0.0), TightRequest(9.0), SteepModels(), ["a", "b"]);
  }

  lemma RisingScale(used: real, pool: seq<Model>)
    requires 0.0 <= used <= 9.0
    ensures var s := ScaleOf(TightRequest(used), SteepModels(), pool); s.premiumCost == 10.0 && s.pressure == used / 10.0
    ensures EstCost(TightRequest(used))(SteepModels()["a"]) == 2.0 && EstCost(TightRequest(used))(SteepModels()["b"]) == 1.0
  {
  }

  lemma RisingScores(used: real, pool: seq<Model>)
    requires 0.0 <= used <= 9.0
    ensures var score := Score(RISING_WEIGHTS, TightRequest(used), SteepModels(), pool);
      && score(SteepModels()["a"]) == 1.2 * SCORE_CAP * (1.0 + used / 10.0)
      && score(SteepModels()["b"]) == 0.6 * SCORE_CAP * (1.0 + used / 10.0)
  {
    var ctx := TightRequest(used);
    RisingScale(used, pool);
    RisingScore(ScaleOf(ctx, SteepModels(), pool), ctx, SteepModels()["a"]);
    RisingScore(ScaleOf(ctx, SteepModels(), pool), ctx, SteepModels()["b"]);
  }

  lemma SecondBelowCap(a: Model, b: Model, key: Model -> real)
    requires key(a) >= SCORE_CAP && key(b) < SCORE_CAP
    ensures FirstMin([a, b], Capped(key)) == b
  {
    assert [a, b][..1] == [a];
  }

  /** The choice among a and b at a spend, from the two scores. */
  lemma RisingChoice(used: real, a: Model, b: Model)
    requires a == SteepModels()["a"] && b == SteepModels()["b"] && 0.0 <= used <= 9.0
    ensures var pick := FirstMin([a, b], Capped(Score(RISING_WEIGHTS, TightRequest(used), SteepModels(), [a, b])));
      && (used == 0.0 ==> pick == b)
      && (used == 9.0 ==> pick == a)
  {
    var score := Score(RISING_WEIGHTS, TightRequest(used), SteepModels(), [a, b]);
    RisingScores(used, [a, b]);
    if used == 0.0 {
      SecondBelowCap(a, b, score);
    } else if used == 9.0 {
      FirstAboveCap(a, b, score);
    }
  }

  lemma RisingPick(norm: Normalizer, used: real)
    requires OursPool(norm, TightRequest(used), SteepModels()) == [SteepModels()["a"], SteepModels()["b"]]
    requires 0.0 <= used <= 9.0
    ensures used == 0.0 ==> OursPick(RISING_WEIGHTS, norm, TightRequest(used), SteepModels()) == SteepModels()["b"]
    ensures used == 9.0 ==> OursPick(RISING_WEIGHTS, norm, TightRequest(used), SteepModels()) == SteepModels()["a"]
  {
    RisingChoice(used, SteepModels()["a"], SteepModels()["b"]);
  }

  /** A witness: one pool, nothing exhausted, and yet more spending moves the choice from b at 1.0 to a at 2.0. */
  lemma BudgetMayRaiseCost(norm: Normalizer)
    ensures !Exhausted(TightRequest(9.0))
    ensures OursPool(norm, TightRequest(9.0), SteepModels()) == OursPool(norm, TightRequest(0.0), SteepModels()) != []
    ensures EstCost(TightRequest(0.0))(OursPick(RISING_WEIGHTS, norm, TightRequest(0.0), SteepModels())) == 1.0
    ensures EstCost(TightRequest(9.0))(OursPick(RISING_WEIGHTS, norm, TightRequest(9.0), SteepModels())) == 2.0
  {
    SteepPool(norm);
    RisingPool(norm);
    RisingPick(norm, 0.0);
    RisingPick(norm, 9.0);
    RisingScale(0.0, []);
    RisingScale(9.0, []);
  }

  // ---------- when exhaustion does not raise the cost ----------

  /** The exchange of two minimisers over pools of which one contains the other. */
  lemma ExchangeAcross(pool: seq<Model>, wider: seq<Model>, score: Model -> real, score': Model -> real,
                       cost: Model -> real, d: real, m: Model, m': Model)
    requires pool != [] && wider != [] && d > 0.0 && forall x | x in pool :: x in wider
    requires forall x :: score'(x) == score(x) + Mul(d, cost(x))
    requires (exists x | x in pool :: score(x) < SCORE_CAP) && exists x | x in wider :: score'(x) < SCORE_CAP
    requires m == FirstMin(pool, Capped(score)) && m' == FirstMin(wider, Capped(score')) && m' in pool
    ensures cost(m') <= cost(m)
  {
    InPool(pool, Capped(score), m);
    CapTransparent(pool, score, m, m');
    CapTransparent(wider, score', m', m);
    Exchange(d, cost(m), cost(m'), score(m), score(m'));
  }

  lemma SurchargePositive(w: Weights, dp: real)
    requires w.alpha > 0.0 && w.epsilon > 0.0 && dp > 0.0
    ensures Surcharge(w, dp) > 0.0
  {
    MulStrict(0.0, w.alpha, w.epsilon);
    MulStrict(0.0, Mul(w.alpha, w.epsilon), dp);
  }

  /** m costs no more than best, or is no better than it in quality, latency and sovereignty risk. */
  predicate HarmlessBeside(ctx: Request, best: Model, m: Model) {
    || EstCost(ctx)(m) <= EstCost(ctx)(best)
    || (&& m.qualityPrior <= best.qualityPrior && m.latencyPriorMS >= best.latencyPriorMS
        && SovereigntyRisk(ctx, m) >= SovereigntyRisk(ctx, best))
  }

  /**
   Exhausting the budget does not raise the cost either when the models the gate kept out are no slower than the
   slowest it let in, and each costs no more than the model served before, or is no better than it in anything.
   */
  lemma ExhaustionRaisesNothing(w: Weights, norm: Normalizer, ctx: Request, ctx': Request, models: Models)
    requires ctx' == ctx.(budgetUsedEUR := ctx'.budgetUsedEUR) && !Exhausted(ctx) && Exhausted(ctx')
    requires NonNegativeWeights(w) && w.epsilon > 0.0 && OursPool(norm, ctx, models) != []
    requires var pool, wider := OursPool(norm, ctx, models), Candidates(norm, ctx, models);
      && MaxLatency(wider) == MaxLatency(pool)
      && (forall m | m in wider && m !in pool :: HarmlessBeside(ctx, OursPick(w, norm, ctx, models), m))
      && (exists m | m in pool :: Score(w, ctx, models, pool)(m) < SCORE_CAP)
      && (exists m | m in wider :: Score(w, ctx', models, wider)(m) < SCORE_CAP)
    ensures OursPool(norm, ctx', models) == Candidates(norm, ctx, models) != []
    ensures EstCost(ctx')(OursPick(w, norm, ctx', models)) <= EstCost(ctx)(OursPick(w, norm, ctx, models))
  {
    var pool, wider := OursPool(norm, ctx, models), Candidates(norm, ctx, models);
    CompliantSame(norm, ctx, ctx', models, ctx.allowedModels);
    assert OursPool(norm, ctx', models) == wider;
    var m, m' := OursPick(w, norm, ctx, models), OursPick(w, norm, ctx', models);
    var score' := Score(w, ctx', models, wider);
    InPool(wider, Capped(score'), m');
    InPool(pool, Capped(Score(w, ctx, models, pool)), m);
    GatedAreCandidates(norm, ctx, models);
    if m' in pool {
      GatedPickNoDearer(w, norm, ctx, ctx', models);
    } else if EstCost(ctx)(m) < EstCost(ctx)(m') {
      CapTransparent(wider, score', m', m);
      ExhaustedSpendPositive(ctx');
      DominatingScoresLower(w, ScaleOf(ctx', models, wider), ctx', m, m');
    }
  }

  lemma ExhaustedSpendPositive(ctx: Request)
    requires Exhausted(ctx)
    ensures ctx.budgetUsedEUR >= 0.0
  {
  }

  /** A choice the gate had let in already. */
  lemma GatedPickNoDearer(w: Weights, norm: Normalizer, ctx: Request, ctx': Request, models: Models)
    requires ctx' == ctx.(budgetUsedEUR := ctx'.budgetUsedEUR) && !Exhausted(ctx) && Exhausted(ctx')
    requires w.alpha > 0.0 && w.epsilon > 0.0 && OursPool(norm, ctx, models) != []
    requires OursPool(norm, ctx', models) == Candidates(norm, ctx, models) != []
    requires var pool, wider := OursPool(norm, ctx, models), Candidates(norm, ctx, models);
      && MaxLatency(wider) == MaxLatency(pool) && OursPick(w, norm, ctx', models) in pool
      && (exists m | m in pool :: Score(w, ctx, models, pool)(m) < SCORE_CAP)
      && (exists m | m in wider :: Score(w, ctx', models, wider)(m) < SCORE_CAP)
    ensures EstCost(ctx')(OursPick(w, norm, ctx', models)) <= EstCost(ctx)(OursPick(w, norm, ctx, models))
  {
    var pool, wider := OursPool(norm, ctx, models), Candidates(norm, ctx, models);
    var m, m' := OursPick(w, norm, ctx, models), OursPick(w, norm, ctx', models);
    var s, d := ScaleOf(ctx, models, pool), Surcharge(w, Pressure(ctx') - Pressure(ctx));
    PressureRises(ctx, ctx');
    SurchargePositive(w, Pressure(ctx') - Pressure(ctx));
    GatedAreCandidates(norm, ctx, models);
    assert ScaleOf(ctx, models, wider) == s;
    var score, score', cost := Score(w, ctx, models, pool), Score(w, ctx', models, wider), NormCosts(s, ctx);
    forall x ensures score'(x) == score(x) + Mul(d, cost(x)) {
      ScoreShift(w, ctx, ctx', models, wider, x);
    }
    ExchangeAcross(pool, wider, score, score', cost, d, m, m');
    NormCostOrder(s, ctx, m', m);
  }

  lemma PressureRises(ctx: Request, ctx': Request)
    requires ctx' == ctx.(budgetUsedEUR := ctx'.budgetUsedEUR) && !Exhausted(ctx) && Exhausted(ctx')
    ensures Pressure(ctx) < Pressure(ctx') == 1.0
  {
    DivBound(ctx.budgetUsedEUR, ctx.budgetTotalEUR, 1.0);
    DivBound(ctx'.budgetUsedEUR, ctx.budgetTotalEUR, 1.0);
  }

  lemma GatedAreCandidates(norm: Normalizer, ctx: Request, models: Models)
    ensures forall m | m in OursPool(norm, ctx, models) :: m in Candidates(norm, ctx, models)
  {
    var ok := Candidates(norm, ctx, models);
    forall m | m in GoodEnough(ok, ctx.minQuality) ensures m in ok {
      GoodEnoughMember(ok, ctx.minQuality, m);
    }
  }
}
