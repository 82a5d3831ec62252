/** The seven strategies of experimentation/internal/router/router.go. */
module Strategies {
  import opened Catalog
  import opened Router

  datatype Weights = Weights(alpha: real, beta: real, gamma: real, delta: real, epsilon: real)

  const DEFAULT_WEIGHTS := Weights(1.0, 1.5, 0.3, 0.5, 1.0)

  function Blocked(rejected: seq<string>): Decision {
    Decision("", 0.0, rejected, false, true)
  }

  function Chosen(ctx: Request, m: Model, rejected: seq<string>, fallback: bool): Decision {
    Decision(m.id, EstCost(ctx)(m), rejected, fallback, false)
  }

  // ---------- choices as functions of the request ----------

  function ChoosePremium(norm: Normalizer, ctx: Request, models: Models): Decision {
    Chosen(ctx, Lookup(models, ctx.premiumModel), RejectedIDs(norm, ctx, models), false)
  }

  /** The n-th decision of a round robin. */
  function ChooseRoundRobin(n: nat, norm: Normalizer, ctx: Request, models: Models): Decision {
    var ok, rejected := Candidates(norm, ctx, models), RejectedIDs(norm, ctx, models);
    if ok == [] then Blocked(rejected) else Chosen(ctx, ok[n % |ok|], rejected, false)
  }

  function ChooseLeastCost(norm: Normalizer, ctx: Request, models: Models): Decision {
    var ok, rejected := Candidates(norm, ctx, models), RejectedIDs(norm, ctx, models);
    if ok == [] then Blocked(rejected) else Chosen(ctx, FirstMin(ok, EstCost(ctx)), rejected, false)
  }

  function StaticPick(ctx: Request): string {
    match ctx.namespace
    case "hr" => "gpt-4.1-nano"
    case "rag" => "gpt-4o-mini"
    case "dev" => "gpt-4o"
    case "agent" => "gpt-4o"
    case _ => ctx.premiumModel
  }

  function ChooseStatic(norm: Normalizer, ctx: Request, models: Models): Decision {
    var ok, rejected := Candidates(norm, ctx, models), RejectedIDs(norm, ctx, models);
    var pick := Lookup(models, StaticPick(ctx));
    if !Violates(norm, pick, ctx.scenario, ctx.sensitive) then Chosen(ctx, pick, rejected, false)
    else if ok == [] then Blocked(rejected)
    else Chosen(ctx, ok[0], rejected, true)
  }

  function ChooseHardBlock(norm: Normalizer, ctx: Request, models: Models): Decision {
    var rejected := RejectedIDs(norm, ctx, models);
    if ctx.budgetUsedEUR >= ctx.budgetTotalEUR then Blocked(rejected)
    else Chosen(ctx, Lookup(models, ctx.premiumModel), rejected, false)
  }

  function Difficulty(ctx: Request): real {
    var length := ctx.estInputTokens as real / 400.0;
    Max(ctx.minQuality, if length > 1.0 then 1.0 else length)
  }

  function Max(x: real, y: real): real {
    if y > x then y else x
  }

  function GoodEnough(s: seq<Model>, quality: real): seq<Model> {
    if s == [] then []
    else GoodEnough(s[..|s| - 1], quality) + if s[|s| - 1].qualityPrior >= quality then [s[|s| - 1]] else []
  }

  function LostQuality(): Model -> real {
    (m: Model) => -m.qualityPrior
  }

  function ChooseDifficulty(norm: Normalizer, ctx: Request, models: Models): Decision {
    var ok, rejected := Candidates(norm, ctx, models), RejectedIDs(norm, ctx, models);
    if ok == [] then Blocked(rejected)
    else
      var strong := GoodEnough(ok, Difficulty(ctx));
      var best := if strong != [] then FirstMin(strong, EstCost(ctx)) else FirstMin(ok, LostQuality());
      Chosen(ctx, best, rejected, best.id != ctx.premiumModel)
  }

  // ---------- Ours ----------

  /** The quantities the score of a model is normalised by. */
  datatype Scale = Scale(premiumCost: real, premiumQuality: real, pressure: real, maxLatency: real)

  predicate ProperScale(s: Scale) {
    s.premiumCost > 0.0 && s.premiumQuality > 0.0 && s.maxLatency > 0.0
  }

  function PremiumCost(ctx: Request, models: Models): (c: real)
    ensures c > 0.0
  {
    var c := EstCost(ctx)(Lookup(models, ctx.premiumModel));
    if c <= 0.0 then 0.000000001 else c
  }

  function PremiumQuality(ctx: Request, models: Models): (q: real)
    ensures q > 0.0
  {
    var q := Lookup(models, ctx.premiumModel).qualityPrior;
    if q <= 0.0 then 1.0 else q
  }

  function Pressure(ctx: Request): real {
    if ctx.budgetTotalEUR > 0.0 then
      var p := ctx.budgetUsedEUR / ctx.budgetTotalEUR;
      if p > 1.0 then 1.0 else p
    else 0.0
  }

  predicate Exhausted(ctx: Request) {
    ctx.budgetTotalEUR > 0.0 && ctx.budgetUsedEUR >= ctx.budgetTotalEUR
  }

  /** The quality gate: relaxed when the budget is exhausted, dropped when nothing passes it. */
  function Pool(ctx: Request, ok: seq<Model>): seq<Model> {
    var passed := if Exhausted(ctx) then ok else GoodEnough(ok, ctx.minQuality);
    if passed == [] then ok else passed
  }

  function MaxLatency(pool: seq<Model>): (l: real)
    ensures l >= 1.0
    ensures forall m | m in pool :: m.latencyPriorMS <= l
  {
    if pool == [] then 1.0
    else
      assert forall m | m in pool :: m in pool[..|pool| - 1] || m == pool[|pool| - 1];
      Max(MaxLatency(pool[..|pool| - 1]), pool[|pool| - 1].latencyPriorMS)
  }

  function ScaleOf(ctx: Request, models: Models, pool: seq<Model>): (s: Scale)
    ensures ProperScale(s)
  {
    Scale(PremiumCost(ctx, models), PremiumQuality(ctx, models), Pressure(ctx), MaxLatency(pool))
  }

  function NormCost(s: Scale, cost: real): real
    requires ProperScale(s)
  {
    cost / s.premiumCost
  }

  function QualityLoss(s: Scale, quality: real): real
    requires ProperScale(s)
  {
    var l := (s.premiumQuality - quality) / s.premiumQuality;
    if l < 0.0 then 0.0 else l
  }

  function SovereigntyRisk(ctx: Request, m: Model): real {
    if m.managed && !ctx.scenario.externalProvidersAllowed then 1.0 else 0.0
  }

  /** The part of the score that does not depend on the budget. */
  function BaseScore(w: Weights, s: Scale, quality: real, latency: real, risk: real): real
    requires ProperScale(s)
  {
    w.beta * QualityLoss(s, quality) + w.gamma * (latency / s.maxLatency) + w.delta * risk
  }

  function CostScore(w: Weights, pressure: real, normCost: real): real {
    w.alpha * normCost * (1.0 + w.epsilon * pressure)
  }

  function ScoreIn(w: Weights, s: Scale, ctx: Request): Model -> real
    requires ProperScale(s)
  {
    m => CostScore(w, s.pressure, NormCost(s, EstCost(ctx)(m)))
         + BaseScore(w, s, m.qualityPrior, m.latencyPriorMS, SovereigntyRisk(ctx, m))
  }

  /** The score of a model among the pool it competes in. */
  function Score(w: Weights, ctx: Request, models: Models, pool: seq<Model>): Model -> real {
    ScoreIn(w, ScaleOf(ctx, models, pool), ctx)
  }

  const SCORE_CAP := 1000000000000000000.0

  function Capped(key: Model -> real): Model -> real {
    m => if key(m) < SCORE_CAP then key(m) else SCORE_CAP
  }

  function ChooseOurs(w: Weights, norm: Normalizer, ctx: Request, models: Models): Decision {
    var ok, rejected := Candidates(norm, ctx, models), RejectedIDs(norm, ctx, models);
    if ok == [] then Blocked(rejected)
    else
      var pool := Pool(ctx, ok);
      var best := FirstMin(pool, Capped(Score(w, ctx, models, pool)));
      var degraded := !Exhausted(ctx) && GoodEnough(ok, ctx.minQuality) == [];
      Chosen(ctx, best, rejected, degraded || best.id != ctx.premiumModel)
  }

  // ---------- the strategies' loops ----------

  /** The stateful round robin: only a served request moves it on. */
  class RoundRobin {
    var n: nat

    constructor ()
      ensures n == 0
    {
      n := 0;
    }

    method Choose(norm: Normalizer, ctx: Request, models: Models) returns (d: Decision)
      modifies this
      ensures d == ChooseRoundRobin(old(n), norm, ctx, models)
      ensures n == old(n) + if d.blocked then 0 else 1
    {
      var ok, rejected := FindCandidates(norm, ctx, models);
      if ok == [] {
        return Blocked(rejected);
      }
      var m := ok[n % |ok|];
      n := n + 1;
      d := Chosen(ctx, m, rejected, false);
    }
  }

  method LeastCost(norm: Normalizer, ctx: Request, models: Models) returns (d: Decision)
    ensures d == ChooseLeastCost(norm, ctx, models)
  {
    var ok, rejected := FindCandidates(norm, ctx, models);
    if ok == [] {
      return Blocked(rejected);
    }
    var best := Scan(ok, EstCost(ctx));
    d := Chosen(ctx, best, rejected, false);
  }

  method DifficultyRouter(norm: Normalizer, ctx: Request, models: Models) returns (d: Decision)
    ensures d == ChooseDifficulty(norm, ctx, models)
  {
    hide Candidates, RejectedIDs, GoodEnough, FirstMin;
    var ok, rejected := FindCandidates(norm, ctx, models);
    if ok == [] {
      return Blocked(rejected);
    }
    var length := ctx.estInputTokens as real / 400.0;
    if length > 1.0 {
      length := 1.0;
    }
    var difficulty := ctx.minQuality;
    if length > difficulty {
      difficulty := length;
    }
    var found, best := CheapestStrong(ok, difficulty, EstCost(ctx));
    if !found {
      best := Scan(ok, LostQuality());
    }
    d := Chosen(ctx, best, rejected, best.id != ctx.premiumModel);
  }

  /** The loop over the models that meet the difficulty. */
  method CheapestStrong(ok: seq<Model>, difficulty: real, cost: Model -> real) returns (found: bool, best: Model)
    ensures found == (GoodEnough(ok, difficulty) != [])
    ensures found ==> best == FirstMin(GoodEnough(ok, difficulty), cost)
  {
    found, best := false, ZERO_MODEL;
    for i := 0 to |ok|
      invariant found == (GoodEnough(ok[..i], difficulty) != [])
      invariant found ==> best == FirstMin(GoodEnough(ok[..i], difficulty), cost)
    {
      assert ok[..i + 1][..i] == ok[..i];
      ghost var strong := GoodEnough(ok[..i], difficulty);
      if ok[i].qualityPrior >= difficulty {
        assert GoodEnough(ok[..i + 1], difficulty) == strong + [ok[i]];
        FirstMinSnoc(strong, ok[i], cost);
        if !found || cost(ok[i]) < cost(best) {
          best, found := ok[i], true;
        }
      } else {
        assert GoodEnough(ok[..i + 1], difficulty) == strong + [] == strong;
      }
    }
    assert ok[..|ok|] == ok;
  }

  /** The gating loop of Ours. */
  method Gate(ctx: Request, ok: seq<Model>) returns (pool: seq<Model>, degraded: bool)
    ensures pool == Pool(ctx, ok)
    ensures ok != [] ==> degraded == (!Exhausted(ctx) && GoodEnough(ok, ctx.minQuality) == [])
  {
    var exhausted := ctx.budgetTotalEUR > 0.0 && ctx.budgetUsedEUR >= ctx.budgetTotalEUR;
    pool, degraded := [], false;
    for i := 0 to |ok|
      invariant pool == if exhausted then ok[..i] else GoodEnough(ok[..i], ctx.minQuality)
    {
      assert ok[..i + 1][..i] == ok[..i] && ok[..i + 1] == ok[..i] + [ok[i]];
      if ok[i].qualityPrior >= ctx.minQuality || exhausted {
        pool := pool + [ok[i]];
      }
    }
    assert ok[..|ok|] == ok;
    if pool == [] {
      pool := ok;
      degraded := true;
    }
  }

  method Ours(w: Weights, norm: Normalizer, ctx: Request, models: Models) returns (d: Decision)
    ensures d == ChooseOurs(w, norm, ctx, models)
  {
    var ok, rejected := FindCandidates(norm, ctx, models);
    if ok == [] {
      return Blocked(rejected);
    }
    var pool, degraded := Gate(ctx, ok);
    var maxLat := SlowestOf(pool);
    var scale := Scale(PremiumCost(ctx, models), PremiumQuality(ctx, models), Pressure(ctx), maxLat);
    var score := ScoreIn(w, scale, ctx);
    var best := ScanBelowCap(pool, score);
    d := Chosen(ctx, best, rejected, degraded || best.id != ctx.premiumModel);
  }

  method SlowestOf(pool: seq<Model>) returns (maxLat: real)
    ensures maxLat == MaxLatency(pool)
  {
    maxLat := 1.0;
    for i := 0 to |pool|
      invariant maxLat == MaxLatency(pool[..i])
    {
      assert pool[..i + 1][..i] == pool[..i];
      if pool[i].latencyPriorMS > maxLat {
        maxLat := pool[i].latencyPriorMS;
      }
    }
    assert pool[..|pool|] == pool;
  }

  /** The scoring loop of Ours: the running best score starts at the cap, not at the first model's score. */
  method ScanBelowCap(pool: seq<Model>, score: Model -> real) returns (best: Model)
    requires pool != []
    ensures best == FirstMin(pool, Capped(score))
  {
    best := pool[0];
    var bestScore := SCORE_CAP;
    for i := 0 to |pool|
      invariant i == 0 ==> best == pool[0] && bestScore == SCORE_CAP
      invariant i > 0 ==> best == FirstMin(pool[..i], Capped(score)) && bestScore == Capped(score)(best)
    {
      assert i > 0 ==> pool[..i + 1][..i] == pool[..i];
      if score(pool[i]) < bestScore {
        bestScore := score(pool[i]);
        best := pool[i];
      }
    }
    assert pool[..|pool|] == pool;
  }
}
