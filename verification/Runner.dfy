/**
 The budget and sovereignty experiments (RunBudget and RunSovereignty in
 experimentation/internal/runner/runner_rqs.go): loops that route a workload prompt by prompt, call the
 engine and thread spend and counters through.
 */
module Runner {
  import opened Catalog
  import opened Engine
  import opened Router
  import opened Strategies
  import opened Workloads
  import opened Wrappers

  /** A stateless strategy, as the runner calls it. */
  type Strategy = Request -> Decision

  function PremiumStrategy(norm: Normalizer, models: Models): Strategy {
    ctx => ChoosePremium(norm, ctx, models)
  }

  function HardBlockStrategy(norm: Normalizer, models: Models): Strategy {
    ctx => ChooseHardBlock(norm, ctx, models)
  }

  function OursStrategy(norm: Normalizer, models: Models): Strategy {
    ctx => ChooseOurs(DEFAULT_WEIGHTS, norm, ctx, models)
  }

  /** What calling depends on. */
  datatype Setting = Setting(env: Env, models: Models)

  /** What a served request brings. */
  datatype Served = Served(usage: Usage, cost: real, latencyMS: int, quality: real)

  function ServeOn(env: Env, m: Model, p: Prompt): Result<Served, Error> {
    match Answer(env, m, p)
    case Err(e) => Err(e)
    case Ok(r) =>
      match Rating(env, m, p, r.text)
      case Err(e) => Err(e)
      case Ok(q) => Ok(Served(r.usage, TokenCost(m, r.usage.inputTokens, r.usage.outputTokens), r.latencyMS, q))
  }

  /** The same with the caches a call finds, and the caches it leaves. */
  function ServeFrom(env: Env, c: Caches, m: Model, p: Prompt): (Result<Served, Error>, Caches) {
    var call := CallModel(m, p);
    match Returned(env, c, call).response
    case Err(e) => (Err(e), Left(env, c, call))
    case Ok(r) =>
      var judge := Acceptability(m, p, r.text);
      match Returned(env, Left(env, c, call), judge).score
      case Err(e) => (Err(e), Left(env, Left(env, c, call), judge))
      case Ok(q) =>
        (Ok(Served(r.usage, TokenCost(m, r.usage.inputTokens, r.usage.outputTokens), r.latencyMS, q)),
         Left(env, Left(env, c, call), judge))
  }

  /** The answer and its rating: what every experiment asks of the engine for a routed prompt. */
  method Serve(e: Engine, m: Model, p: Prompt) returns (r: Result<Served, Error>)
    modifies e`answerCache, e`acceptCache, e`asked
    ensures (r, e.Contents()) == ServeFrom(e.env, old(e.Contents()), m, p)
  {
    var resp, live := e.CallModel(m, p);
    if resp.Err? {
      return Err(resp.error);
    }
    var q := e.Acceptability(m, p, resp.value.text);
    if q.Err? {
      return Err(q.error);
    }
    var usage := resp.value.usage;
    r := Ok(Served(usage, TokenCost(m, usage.inputTokens, usage.outputTokens), resp.value.latencyMS, q.value));
  }

  /** A loop over calls: its state so far, the call error that ended it, if any, and the caches it leaves. */
  datatype Progress<+S> = Progress(state: S, failure: Option<Error>, caches: Caches)

  function Finish<S>(g: Progress<S>): Result<S, Error> {
    if g.failure.Some? then Err(g.failure.value) else Ok(g.state)
  }

  function NormQuality(q: real): real {
    (q - 1.0) / 4.0
  }

  // ---------- RunBudget ----------

  /** alert-only, hard-block and ours-graceful. */
  function Policies(norm: Normalizer, models: Models): (ps: seq<Strategy>)
    ensures |ps| == 3
  {
    [PremiumStrategy(norm, models), HardBlockStrategy(norm, models), OursStrategy(norm, models)]
  }

  datatype Spend = Spend(used: real, served: nat, blocked: nat, qualities: seq<real>)

  const NO_SPEND := Spend(0.0, 0, 0, [])

  function Charge(t: Spend, x: Served): Spend {
    Spend(t.used + x.cost, t.served + 1, t.blocked, t.qualities + [NormQuality(x.quality)])
  }

  /** One prompt more; nothing more after a failure. */
  function SpendStep(choose: Strategy, s: Setting, w: Workload, budget: real, g: Progress<Spend>, p: Prompt)
    : Progress<Spend>
  {
    if g.failure.Some? then g
    else
      var d := choose(RequestFor(w, p, GLOBAL, budget, g.state.used));
      if d.blocked then g.(state := g.state.(blocked := g.state.blocked + 1))
      else
        var (x, c) := ServeFrom(s.env, g.caches, Lookup(s.models, d.modelID), p);
        match x
        case Err(e) => g.(failure := Some(e), caches := c)
        case Ok(v) => Progress(Charge(g.state, v), None, c)
  }

  /** The spend after the prompts ps under a policy, from the caches c. */
  function SpendFrom(choose: Strategy, s: Setting, w: Workload, budget: real, ps: seq<Prompt>, c: Caches): Progress<Spend> {
    if ps == [] then Progress(NO_SPEND, None, c)
    else SpendStep(choose, s, w, budget, SpendFrom(choose, s, w, budget, ps[..|ps| - 1], c), ps[|ps| - 1])
  }

  lemma {:induction false} SpendStops(choose: Strategy, s: Setting, w: Workload, budget: real, ps: seq<Prompt>, c: Caches,
                                      k: nat)
    requires k <= |ps| && SpendFrom(choose, s, w, budget, ps[..k], c).failure.Some?
    ensures SpendFrom(choose, s, w, budget, ps, c) == SpendFrom(choose, s, w, budget, ps[..k], c)
    decreases |ps|
  {
    if k < |ps| {
      assert ps[..|ps| - 1][..k] == ps[..k];
      SpendStops(choose, s, w, budget, ps[..|ps| - 1], c, k);
    } else {
      assert ps[..k] == ps;
    }
  }

  /** The cost of the premium model's answers to the prompts, from the caches c. */
  function PremiumFrom(s: Setting, w: Workload, ps: seq<Prompt>, c: Caches): Progress<real> {
    if ps == [] then Progress(0.0, None, c)
    else
      var g := PremiumFrom(s, w, ps[..|ps| - 1], c);
      if g.failure.Some? then g
      else
        var pm := Lookup(s.models, w.premiumModel);
        var call := CallModel(pm, ps[|ps| - 1]);
        match Returned(s.env, g.caches, call).response
        case Err(e) => g.(failure := Some(e), caches := Left(s.env, g.caches, call))
        case Ok(r) =>
          Progress(g.state + TokenCost(pm, r.usage.inputTokens, r.usage.outputTokens), None, Left(s.env, g.caches, call))
  }

  lemma {:induction false} PremiumStops(s: Setting, w: Workload, ps: seq<Prompt>, c: Caches, k: nat)
    requires k <= |ps| && PremiumFrom(s, w, ps[..k], c).failure.Some?
    ensures PremiumFrom(s, w, ps, c) == PremiumFrom(s, w, ps[..k], c)
    decreases |ps|
  {
    if k < |ps| {
      assert ps[..|ps| - 1][..k] == ps[..k];
      PremiumStops(s, w, ps[..|ps| - 1], c, k);
    } else {
      assert ps[..k] == ps;
    }
  }

  ghost predicate LastAgent(ws: seq<Workload>, i: int) {
    0 <= i < |ws| && ws[i].namespace == "agent" && forall j | i < j < |ws| :: ws[j].namespace != "agent"
  }

  /** The last agent workload, or the last workload when there is none or it has no name. */
  ghost predicate Selected(ws: seq<Workload>, w: Workload) {
    && w in ws
    && (forall i | LastAgent(ws, i) && ws[i].name != "" :: w == ws[i])
    && ((forall i | LastAgent(ws, i) :: ws[i].name == "") ==> w == ws[|ws| - 1])
  }

  const NO_WORKLOAD := Workload("", "", "", false, 0.0, "", [], 0.0, [])

  method SelectWorkload(ws: seq<Workload>) returns (w: Workload)
    requires ws != []
    ensures Selected(ws, w)
  {
    w := NO_WORKLOAD;
    ghost var last := -1;
    for k := 0 to |ws|
      invariant last == -1 ==> w == NO_WORKLOAD && forall j | 0 <= j < k :: ws[j].namespace != "agent"
      invariant -1 <= last < k
      invariant last >= 0 ==> w == ws[last] && w.namespace == "agent"
      invariant last >= 0 ==> forall j | last < j < k :: ws[j].namespace != "agent"
    {
      if ws[k].namespace == "agent" {
        w := ws[k];
        last := k;
      }
    }
    assert last >= 0 ==> LastAgent(ws, last);
    if w.name == "" {
      w := ws[|ws| - 1];
    }
  }

  /** What the premium model costs on the whole workload. */
  method PremiumAll(e: Engine, models: Models, w: Workload) returns (r: Result<real, Error>)
    modifies e`answerCache, e`asked
    ensures var g := PremiumFrom(Setting(e.env, models), w, w.prompts, old(e.Contents()));
      r == Finish(g) && e.Contents() == g.caches
  {
    ghost var s, c := Setting(e.env, models), e.Contents();
    var total := 0.0;
    var pm := Lookup(models, w.premiumModel);
    for i := 0 to |w.prompts|
      invariant PremiumFrom(s, w, w.prompts[..i], c) == Progress(total, None, e.Contents())
    {
      assert w.prompts[..i + 1][..i] == w.prompts[..i];
      var resp, live := e.CallModel(pm, w.prompts[i]);
      if resp.Err? {
        PremiumStops(s, w, w.prompts, c, i + 1);
        return Err(resp.error);
      }
      total := total + TokenCost(pm, resp.value.usage.inputTokens, resp.value.usage.outputTokens);
    }
    assert w.prompts[..|w.prompts|] == w.prompts;
    r := Ok(total);
  }

  /** The body of the prompt loop. */
  method RunPrompt(e: Engine, choose: Strategy, models: Models, w: Workload, budget: real, t: Spend, p: Prompt)
    returns (r: Result<Spend, Error>)
    modifies e`answerCache, e`acceptCache, e`asked
    ensures SpendStep(choose, Setting(e.env, models), w, budget, Progress(t, None, old(e.Contents())), p)
         == match r
            case Ok(t') => Progress(t', None, e.Contents())
            case Err(error) => Progress(t, Some(error), e.Contents())
  {
    var dec := choose(RequestFor(w, p, GLOBAL, budget, t.used));
    if dec.blocked {
      return Ok(t.(blocked := t.blocked + 1));
    }
    var x := Serve(e, Lookup(models, dec.modelID), p);
    if x.Err? {
      return Err(x.error);
    }
    r := Ok(Charge(t, x.value));
  }

  /** One policy over the workload. */
  method RunPolicy(e: Engine, choose: Strategy, models: Models, w: Workload, budget: real)
    returns (r: Result<Spend, Error>)
    modifies e`answerCache, e`acceptCache, e`asked
    ensures var g := SpendFrom(choose, Setting(e.env, models), w, budget, w.prompts, old(e.Contents()));
      r == Finish(g) && e.Contents() == g.caches
  {
    ghost var s, c := Setting(e.env, models), e.Contents();
    var t := NO_SPEND;
    for i := 0 to |w.prompts|
      invariant SpendFrom(choose, s, w, budget, w.prompts[..i], c) == Progress(t, None, e.Contents())
    {
      assert w.prompts[..i + 1][..i] == w.prompts[..i];
      r := RunPrompt(e, choose, models, w, budget, t, w.prompts[i]);
      if r.Err? {
        SpendStops(choose, s, w, budget, w.prompts, c, i + 1);
        return;
      }
      t := r.value;
    }
    assert w.prompts[..|w.prompts|] == w.prompts;
    r := Ok(t);
  }

  function BudgetOf(premiumAll: real): real {
    premiumAll * 0.4
  }

  /** Percent over budget; None is Go's infinity, for spending against a zero budget. */
  function Overrun(used: real, budget: real): Option<real> {
    if used <= budget then Some(0.0)
    else if budget == 0.0 then None
    else Some((used - budget) / budget * 100.0)
  }

  datatype BudgetRow = BudgetRow(spend: Spend, overrun: Option<real>)

  function RowOf(t: Spend, budget: real): BudgetRow {
    BudgetRow(t, Overrun(t.used, budget))
  }

  /** The rows of the policies in order, up to the first that fails, each from the caches the one before leaves. */
  function RowsFrom(pols: seq<Strategy>, s: Setting, w: Workload, budget: real, c: Caches): Progress<seq<BudgetRow>> {
    if pols == [] then Progress([], None, c)
    else
      var g := RowsFrom(pols[..|pols| - 1], s, w, budget, c);
      if g.failure.Some? then g
      else
        var x := SpendFrom(pols[|pols| - 1], s, w, budget, w.prompts, g.caches);
        if x.failure.Some? then g.(failure := x.failure, caches := x.caches)
        else Progress(g.state + [RowOf(x.state, budget)], None, x.caches)
  }

  lemma {:induction false} RowsStop(pols: seq<Strategy>, s: Setting, w: Workload, budget: real, c: Caches, k: nat)
    requires k <= |pols| && RowsFrom(pols[..k], s, w, budget, c).failure.Some?
    ensures RowsFrom(pols, s, w, budget, c) == RowsFrom(pols[..k], s, w, budget, c)
    decreases |pols|
  {
    if k < |pols| {
      assert pols[..|pols| - 1][..k] == pols[..k];
      RowsStop(pols[..|pols| - 1], s, w, budget, c, k);
    } else {
      assert pols[..k] == pols;
    }
  }

  /** The loop over the policies. */
  method RunPolicies(e: Engine, pols: seq<Strategy>, models: Models, w: Workload, budget: real)
    returns (r: Result<seq<BudgetRow>, Error>)
    modifies e`answerCache, e`acceptCache, e`asked
    ensures var g := RowsFrom(pols, Setting(e.env, models), w, budget, old(e.Contents()));
      r == Finish(g) && e.Contents() == g.caches
  {
    ghost var s, c := Setting(e.env, models), e.Contents();
    var rows: seq<BudgetRow> := [];
    for k := 0 to |pols|
      invariant RowsFrom(pols[..k], s, w, budget, c) == Progress(rows, None, e.Contents())
    {
      assert pols[..k + 1][..k] == pols[..k];
      var spend := RunPolicy(e, pols[k], models, w, budget);
      if spend.Err? {
        RowsStop(pols, s, w, budget, c, k + 1);
        return Err(spend.error);
      }
      rows := rows + [RowOf(spend.value, budget)];
    }
    assert pols[..|pols|] == pols;
    r := Ok(rows);
  }

  /** The workload, its budget and the rows of the budget experiment, or the first error. */
  method RunBudget(e: Engine, norm: Normalizer, models: Models, ws: seq<Workload>)
    returns (w: Workload, budget: real, r: Result<seq<BudgetRow>, Error>)
    requires ws != []
    modifies e`answerCache, e`acceptCache, e`asked
    ensures Selected(ws, w)
    ensures var s := Setting(e.env, models);
      var total := PremiumFrom(s, w, w.prompts, old(e.Contents()));
      if total.failure.Some? then r == Err(total.failure.value) && e.Contents() == total.caches
      else
        var g := RowsFrom(Policies(norm, models), s, w, BudgetOf(total.state), total.caches);
        budget == BudgetOf(total.state) && r == Finish(g) && e.Contents() == g.caches
  {
    w := SelectWorkload(ws);
    budget := 0.0;
    var premiumAll := PremiumAll(e, models, w);
    if premiumAll.Err? {
      return w, budget, Err(premiumAll.error);
    }
    budget := BudgetOf(premiumAll.value);
    r := RunPolicies(e, Policies(norm, models), models, w, budget);
  }
}
