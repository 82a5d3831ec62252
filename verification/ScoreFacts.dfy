/** What the quantities behind the routing decisions are (experimentation/internal/router/router.go). */
module ScoreFacts {
  import opened Catalog
  import opened Reals
  import opened Router
  import opened RoutingProperties
  import opened Strategies

  /** Prices are per million tokens, and costs add up over the tokens. */
  lemma TokenCosts(m: Model, i: nat, o: nat, i': nat, o': nat)
    ensures TokenCost(m, 1000000, 0) == m.inPerMillion && TokenCost(m, 0, 1000000) == m.outPerMillion
    ensures TokenCost(m, i + i', o + o') == TokenCost(m, i, o) + TokenCost(m, i', o')
  {
  }

  /** A prompt counts as hard as it is long, up to 400 tokens, and never as easier than the quality asked for. */
  lemma DifficultyIsLeast(ctx: Request, x: real)
    ensures Difficulty(ctx) >= ctx.minQuality
    ensures Difficulty(ctx) >= 1.0 || 400.0 * Difficulty(ctx) >= ctx.estInputTokens as real
    ensures x >= ctx.minQuality && (x >= 1.0 || 400.0 * x >= ctx.estInputTokens as real) ==> Difficulty(ctx) <= x
  {
  }

  /** The pressure is the spent share of a positive budget, at most one. */
  lemma PressureIsShare(ctx: Request)
    ensures ctx.budgetTotalEUR > 0.0 && ctx.budgetUsedEUR <= ctx.budgetTotalEUR ==>
              Mul(Pressure(ctx), ctx.budgetTotalEUR) == ctx.budgetUsedEUR
    ensures Exhausted(ctx) ==> Pressure(ctx) == 1.0
    ensures ctx.budgetTotalEUR <= 0.0 ==> Pressure(ctx) == 0.0
  {
    if ctx.budgetTotalEUR > 0.0 {
      QuotientTimes(ctx.budgetUsedEUR, ctx.budgetTotalEUR);
      DivBound(ctx.budgetUsedEUR, ctx.budgetTotalEUR, 1.0);
      DivBound(-ctx.budgetUsedEUR, ctx.budgetTotalEUR, -1.0);
    }
  }

  /** The latency scale is the slowest model's latency, where that is at least one millisecond. */
  lemma {:induction false} SlowestAttained(pool: seq<Model>)
    ensures MaxLatency(pool) == 1.0 || exists m | m in pool :: m.latencyPriorMS == MaxLatency(pool)
  {
    if pool != [] {
      var init, last := pool[..|pool| - 1], pool[|pool| - 1];
      SlowestAttained(init);
      assert last in pool && forall m | m in init :: m in pool;
    }
  }

  function Weighted(w: Weights, pressure: real, cost: real, loss: real, slow: real, risk: real): real {
    w.alpha * cost * (1.0 + w.epsilon * pressure) + (w.beta * loss + w.gamma * slow + risk)
  }

  lemma ScoreWeighted(w: Weights, s: Scale, ctx: Request, m: Model)
    requires ProperScale(s)
    ensures ScoreIn(w, s, ctx)(m)
         == Weighted(w, s.pressure, EstCost(ctx)(m) / s.premiumCost, QualityLoss(s, m.qualityPrior),
                     m.latencyPriorMS / s.maxLatency,
                     if m.managed && !ctx.scenario.externalProvidersAllowed then w.delta else 0.0)
  {
  }

  /**
   The score by its four parts: the cost in units of the premium cost, the quality missing in units of the premium
   quality, the latency in units of the slowest, and the risk of a managed provider.
   */
  lemma ScoreParts(w: Weights, ctx: Request, models: Models, pool: seq<Model>, m: Model)
    returns (cost: real, loss: real, slow: real)
    ensures Mul(cost, PremiumCost(ctx, models)) == EstCost(ctx)(m)
    ensures Mul(loss, PremiumQuality(ctx, models)) == Max(0.0, PremiumQuality(ctx, models) - m.qualityPrior)
    ensures Mul(slow, MaxLatency(pool)) == m.latencyPriorMS
    ensures Score(w, ctx, models, pool)(m)
         == Weighted(w, Pressure(ctx), cost, loss, slow,
                     if m.managed && !ctx.scenario.externalProvidersAllowed then w.delta else 0.0)
  {
    var s := ScaleOf(ctx, models, pool);
    cost, loss, slow := Quotient(EstCost(ctx)(m), s.premiumCost), QualityLoss(s, m.qualityPrior),
                        Quotient(m.latencyPriorMS, s.maxLatency);
    LossTimes(s, m.qualityPrior);
    ScoreWeighted(w, s, ctx, m);
  }

  function Quotient(x: real, d: real): (q: real)
    requires d > 0.0
    ensures Mul(q, d) == x
  {
    QuotientTimes(x, d);
    x / d
  }

  lemma LossTimes(s: Scale, quality: real)
    requires ProperScale(s)
    ensures Mul(QualityLoss(s, quality), s.premiumQuality) == Max(0.0, s.premiumQuality - quality)
  {
    var missing := s.premiumQuality - quality;
    QuotientTimes(missing, s.premiumQuality);
    DivBound(missing, s.premiumQuality, 0.0);
  }

  /** Where external providers are not allowed a managed model scores delta more than an equal one that is not managed. */
  lemma ManagedScoresMore(w: Weights, ctx: Request, models: Models, pool: seq<Model>, m: Model, m': Model)
    requires m.managed && !m'.managed && EstCost(ctx)(m) == EstCost(ctx)(m')
    requires m.qualityPrior == m'.qualityPrior && m.latencyPriorMS == m'.latencyPriorMS
    ensures Score(w, ctx, models, pool)(m) - Score(w, ctx, models, pool)(m')
         == if ctx.scenario.externalProvidersAllowed then 0.0 else w.delta
  {
    var s := ScaleOf(ctx, models, pool);
    BaseScoreProducts(w, s, m.qualityPrior, m.latencyPriorMS, SovereigntyRisk(ctx, m));
    BaseScoreProducts(w, s, m.qualityPrior, m.latencyPriorMS, SovereigntyRisk(ctx, m'));
    assert Mul(1.0, w.delta) == w.delta && Mul(0.0, w.delta) == 0.0;
  }

  /** The static policy's table, where the scenario rules nothing out. */
  lemma StaticTable(norm: Normalizer, ctx: Request, models: Models)
    requires Keyed(models) && ctx.scenario == GLOBAL
    ensures var d := ChooseStatic(norm, ctx, models);
      && !d.blocked && !d.fallback
      && (ctx.namespace == "hr" && "gpt-4.1-nano" in models ==> d.modelID == "gpt-4.1-nano")
      && (ctx.namespace == "rag" && "gpt-4o-mini" in models ==> d.modelID == "gpt-4o-mini")
      && (ctx.namespace in {"dev", "agent"} && "gpt-4o" in models ==> d.modelID == "gpt-4o")
      && (ctx.namespace !in {"hr", "rag", "dev", "agent"} && ctx.premiumModel in models ==> d.modelID == ctx.premiumModel)
  {
  }
}
