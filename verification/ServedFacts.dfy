/**
 What a served prompt brings to the rows of the experiments: its answer, cost and rating
 (experimentation/internal/runner/runner.go and runner_rqs.go).
 */
module ServedFacts {
  import opened Catalog
  import opened Engine
  import opened Router
  import opened Runner
  import opened SovereigntyRun
  import opened Strategies
  import opened Workloads
  import opened Wrappers

  /** A token for every four characters, at least one. */
  lemma TokensOf(s: string)
    ensures |s| >= 4 ==> 4 * EstTokens(s) <= |s| < 4 * EstTokens(s) + 4
    ensures |s| < 4 ==> EstTokens(s) == 1
  {
  }

  /** What a strategy is asked: the workload's terms, the prompt's tokens, and sensitive if either of them is. */
  lemma RequestIs(w: Workload, p: Prompt, s: Scenario, total: real, used: real)
    ensures var ctx := RequestFor(w, p, s, total, used);
      && ctx.namespace == w.namespace && ctx.allowedModels == w.allowedModels && ctx.premiumModel == w.premiumModel
      && ctx.minQuality == w.minQuality && ctx.scenario == s && ctx.budgetTotalEUR == total && ctx.budgetUsedEUR == used
      && (ctx.sensitive <==> p.sensitive || w.defaultSensitive) && ctx.estOutputTokens == 200
      && ctx.estInputTokens == EstTokens(p.system + p.text)
  {
  }

  /** Go's conversion drops the fraction, towards zero. */
  lemma TruncateIs(x: real)
    ensures x >= 0.0 ==> Truncate(x) as real <= x < Truncate(x) as real + 1.0
    ensures x <= 0.0 ==> Truncate(x) as real - 1.0 < x <= Truncate(x) as real
  {
  }

  /** What a model is sent: the prompt's text, after its system prompt if it has one. */
  lemma MessagesAre(p: Prompt)
    ensures |Messages(p)| > 0 && Messages(p)[|Messages(p)| - 1] == Message("user", p.text)
    ensures |Messages(p)| == if p.system == "" then 1 else 2
    ensures p.system != "" ==> Messages(p)[0] == Message("system", p.system)
  {
  }

  /** A model is asked through its provider's client, and the default one where there is none. */
  lemma ClientIs(env: Env, m: Model)
    ensures ClientFor(env, m) == if m.provider in env.clients then env.clients[m.provider] else env.client
  {
  }

  /** A live one is asked by its API name, and its answer carries its catalog ID. */
  lemma LiveAnswer(env: Env, m: Model, p: Prompt)
    requires m.isReal
    ensures var r := ClientFor(env, m)(m.apiModel, Messages(p), env.maxTokens, env.temp);
      && (Answer(env, m, p).Ok? <==> r.Ok?)
      && (r.Ok? ==> Answer(env, m, p).value == r.value.(model := m.id))
      && (r.Err? ==> Answer(env, m, p).error == r.error)
  {
  }

  /** A modelled one is not asked at all. */
  lemma ModelledAnswer(env: Env, m: Model, p: Prompt)
    requires !m.isReal
    ensures Answer(env, m, p).Ok?
    ensures var r := Answer(env, m, p).value;
      && r.usage == Usage(EstTokens(p.system + p.text), 80) && r.latencyMS == Truncate(m.latencyPriorMS)
      && r.model == m.id && r.provider == m.provider
  {
  }

  /** The judge compares the answer, in this order, with the premium model's cached one. */
  lemma JudgeCompares(env: Env, c: Caches, m: Model, p: Prompt, premiumID: string, answer: string)
    requires m.isReal && m.id != premiumID && Key(m.id, p.id) !in c.pair && Key(premiumID, p.id) in c.answers
    ensures Returned(env, c, PairwiseVsPremium(m, p, premiumID, answer))
         == Compared(env.compare(p.text, answer, c.answers[Key(premiumID, p.id)].text))
  {
  }

  /** A prompt is served exactly when the model answers and the judge rates that answer. */
  lemma ServedIs(env: Env, m: Model, p: Prompt)
    requires m.isReal
    ensures ServeOn(env, m, p).Ok? <==>
            Answer(env, m, p).Ok? && env.rate(p.text, Answer(env, m, p).value.text).Ok?
    ensures ServeOn(env, m, p).Ok? ==>
              var v, r := ServeOn(env, m, p).value, Answer(env, m, p).value;
              && v.usage == r.usage && v.latencyMS == r.latencyMS && env.rate(p.text, r.text) == Ok(v.quality)
              && 1000000.0 * v.cost == r.usage.inputTokens as real * m.inPerMillion
                                       + r.usage.outputTokens as real * m.outPerMillion
  {
    if ServeOn(env, m, p).Ok? {
      var r := Answer(env, m, p).value;
      PerMillion(m, r.usage.inputTokens, r.usage.outputTokens);
    }
  }

  lemma PerMillion(m: Model, i: nat, o: nat)
    ensures 1000000.0 * TokenCost(m, i, o) == i as real * m.inPerMillion + o as real * m.outPerMillion
  {
  }

  /** With any caches, a modelled model is served without an error, and its rating, normalised, is its prior. */
  lemma ModelledServed(env: Env, c: Caches, m: Model, p: Prompt)
    requires !m.isReal
    ensures ServeFrom(env, c, m, p).0.Ok?
    ensures NormQuality(ServeFrom(env, c, m, p).0.value.quality) == m.qualityPrior
  {
  }

  // ---------- the rows of the budget experiment ----------

  /** Every prompt is served or blocked, and every served one leaves a quality. */
  lemma {:induction false} SpendCounts(choose: Strategy, s: Setting, w: Workload, budget: real, ps: seq<Prompt>, c: Caches)
    ensures var g := SpendFrom(choose, s, w, budget, ps, c);
      && |g.state.qualities| == g.state.served && (g.failure.None? ==> g.state.served + g.state.blocked == |ps|)
  {
    if ps != [] { SpendCounts(choose, s, w, budget, ps[..|ps| - 1], c); }
  }

  /** The quality of a prompt a policy gives to a modelled model is that model's prior. */
  lemma SpendQuality(choose: Strategy, s: Setting, w: Workload, budget: real, g: Progress<Spend>, p: Prompt)
    requires g.failure.None? && !choose(RequestFor(w, p, GLOBAL, budget, g.state.used)).blocked
    requires !Lookup(s.models, choose(RequestFor(w, p, GLOBAL, budget, g.state.used)).modelID).isReal
    ensures var m := Lookup(s.models, choose(RequestFor(w, p, GLOBAL, budget, g.state.used)).modelID);
      var g' := SpendStep(choose, s, w, budget, g, p);
      && g'.failure.None? && g'.state.served == g.state.served + 1 && g'.state.blocked == g.state.blocked
      && g'.state.qualities == g.state.qualities + [m.qualityPrior]
  {
    var m := Lookup(s.models, choose(RequestFor(w, p, GLOBAL, budget, g.state.used)).modelID);
    ModelledServed(s.env, g.caches, m, p);
  }

  // ---------- the rows of the sovereignty experiment ----------

  lemma FoundByID(models: Models, id: string)
    requires Keyed(models) && "" !in models
    ensures Lookup(models, Lookup(models, id).id) == Lookup(models, id)
  {
  }

  /** A record and the quality of its row: the normalised rating, for a modelled model its prior. */
  predicate QualityOf(models: Models, q: real, r: CallRecord) {
    4.0 * q + 1.0 == r.quality && (!r.isReal ==> q == Lookup(models, r.modelID).qualityPrior)
  }

  lemma CountedQuality(x: Trial, s: Setting, c: Caches, t: Tally, j: Job, m: Model)
    requires m == Lookup(s.models, m.id) && ServeFrom(s.env, c, m, j.p).0.Ok?
    ensures var v := ServeFrom(s.env, c, m, j.p).0.value;
      var t' := Count(x, t, j, m, v);
      && t'.records == t.records + [RecordOf(x, j, m, v)] && t'.qualities == t.qualities + [NormQuality(v.quality)]
      && QualityOf(s.models, NormQuality(v.quality), RecordOf(x, j, m, v))
  {
    if !m.isReal { ModelledServed(s.env, c, m, j.p); }
  }

  /** The qualities of a row are those of its records. */
  lemma {:induction false} TallyQualities(x: Trial, s: Setting, jobs: seq<Job>, c: Caches)
    requires Keyed(s.models) && "" !in s.models
    ensures var t := TallyFrom(x, s, jobs, c).state;
      && |t.qualities| == |t.records|
      && forall i | 0 <= i < |t.records| :: QualityOf(s.models, t.qualities[i], t.records[i])
  {
    if jobs != [] {
      var init, j := jobs[..|jobs| - 1], jobs[|jobs| - 1];
      TallyQualities(x, s, init, c);
      var g := TallyFrom(x, s, init, c);
      var d := x.choose(RequestOf(x, j));
      if g.failure.None? && !d.blocked {
        var m := Lookup(s.models, d.modelID);
        FoundByID(s.models, d.modelID);
        if ServeFrom(s.env, g.caches, m, j.p).0.Ok? {
          CountedQuality(x, s, g.caches, g.state, j, m);
        }
      }
    }
  }
}
