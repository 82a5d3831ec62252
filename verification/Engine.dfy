/**
 The memoising engine under every experiment (experimentation/internal/runner/runner.go): answers, judge
 scores and pairwise verdicts cached under "modelID|promptID".
 */
module Engine {
  import opened Catalog
  import opened Workloads
  import opened Wrappers

  // ---------- the outside world, as functions ----------

  datatype Message = Message(role: string, content: string)

  datatype Usage = Usage(inputTokens: nat, outputTokens: nat)

  datatype Response = Response(text: string, usage: Usage, latencyMS: int, model: string, provider: string)

  type Error = string

  /** Chat: API model, messages, token limit, temperature. */
  type Client = (string, seq<Message>, nat, real) -> Result<Response, Error>

  /** The clients by provider with the default one, the judge's two questions, and the engine's settings. */
  datatype Env = Env(client: Client, clients: map<string, Client>,
                     rate: (string, string) -> Result<real, Error>,
                     compare: (string, string, string) -> Result<string, Error>,
                     maxTokens: nat, temp: real, bypass: bool)

  function ClientFor(env: Env, m: Model): Client {
    if m.provider in env.clients then env.clients[m.provider] else env.client
  }

  // ---------- what an engine without caches returns ----------

  function Messages(p: Prompt): seq<Message> {
    (if p.system != "" then [Message("system", p.system)] else []) + [Message("user", p.text)]
  }

  /** Go's conversion of a float to an integer. */
  function Truncate(x: real): int {
    if x >= 0.0 then x.Floor else -(-x).Floor
  }

  const STUB_TEXT := "[modeled self-hosted answer; quality from prior]"

  function Stub(m: Model, p: Prompt): Response {
    Response(STUB_TEXT, Usage(EstTokens(p.system + p.text), 80), Truncate(m.latencyPriorMS), m.id, m.provider)
  }

  /** The answer of a model to a prompt. */
  function Answer(env: Env, m: Model, p: Prompt): Result<Response, Error> {
    if !m.isReal then Ok(Stub(m, p))
    else
      match ClientFor(env, m)(m.apiModel, Messages(p), env.maxTokens, env.temp)
      case Ok(r) => Ok(r.(model := m.id))
      case Err(e) => Err(e)
  }

  /** The 1..5 score of an answer. */
  function Rating(env: Env, m: Model, p: Prompt, answer: string): Result<real, Error> {
    if !m.isReal then Ok(1.0 + 4.0 * m.qualityPrior) else env.rate(p.text, answer)
  }

  /** The verdict of an answer against the premium model's. */
  function Verdict(env: Env, m: Model, p: Prompt, premium: Model, answer: string): Result<string, Error> {
    if !m.isReal || m.id == premium.id then Ok("tie")
    else
      match Answer(env, premium, p)
      case Ok(reference) => env.compare(p.text, answer, reference.text)
      case Err(e) => Err(e)
  }

  // ---------- the caches ----------

  datatype Caches = Caches(answers: map<string, Response>, accept: map<string, real>, pair: map<string, string>)

  const EMPTY := Caches(map[], map[], map[])

  function Key(modelID: string, promptID: string): string {
    modelID + "|" + promptID
  }

  /** One call of the engine. */
  datatype Op =
    | CallModel(m: Model, p: Prompt)
    | Acceptability(m: Model, p: Prompt, answer: string)
    | PairwiseVsPremium(m: Model, p: Prompt, premiumID: string, answer: string)

  datatype Outcome = Answered(response: Result<Response, Error>) | Rated(score: Result<real, Error>)
                   | Compared(verdict: Result<string, Error>)

  /** No reference answer is cached for a comparison that needs one. */
  predicate MissesReference(c: Caches, op: Op) {
    && op.PairwiseVsPremium? && op.m.isReal && op.m.id != op.premiumID
    && Key(op.m.id, op.p.id) !in c.pair && Key(op.premiumID, op.p.id) !in c.answers
  }

  /** What a call returns with the caches it finds. */
  function Returned(env: Env, c: Caches, op: Op): Outcome {
    var key := Key(op.m.id, op.p.id);
    match op
    case CallModel(m, p) =>
      Answered(if !env.bypass && key in c.answers then Ok(c.answers[key]) else Answer(env, m, p))
    case Acceptability(m, p, answer) =>
      Rated(if m.isReal && !env.bypass && key in c.accept then Ok(c.accept[key]) else Rating(env, m, p, answer))
    case PairwiseVsPremium(m, p, premiumID, answer) =>
      Compared(if !m.isReal || m.id == premiumID || MissesReference(c, op) then Ok("tie")
               else if key in c.pair then Ok(c.pair[key])
               else env.compare(p.text, answer, c.answers[Key(premiumID, p.id)].text))
  }

  /** The caches a call leaves. */
  function Left(env: Env, c: Caches, op: Op): Caches {
    var key := Key(op.m.id, op.p.id);
    match Returned(env, c, op)
    case Answered(Ok(r)) => if env.bypass then c else c.(answers := c.answers[key := r])
    case Rated(Ok(s)) => if env.bypass || !op.m.isReal then c else c.(accept := c.accept[key := s])
    case Compared(Ok(w)) =>
      if !op.m.isReal || op.m.id == op.premiumID || MissesReference(c, op) then c else c.(pair := c.pair[key := w])
    case _ => c
  }

  /** The caches a sequence of calls leaves. */
  function After(env: Env, c: Caches, ops: seq<Op>): Caches {
    if ops == [] then c else Left(env, After(env, c, ops[..|ops| - 1]), ops[|ops| - 1])
  }

  /** Whether a call reaches a client. */
  predicate AsksClient(env: Env, c: Caches, op: Op) {
    op.CallModel? && op.m.isReal && (env.bypass || Key(op.m.id, op.p.id) !in c.answers)
  }

  /** The calls of a sequence that reach a client, in order. */
  function Asked(env: Env, c: Caches, ops: seq<Op>): seq<Op> {
    if ops == [] then []
    else
      var init, last := ops[..|ops| - 1], ops[|ops| - 1];
      Asked(env, c, init) + if AsksClient(env, After(env, c, init), last) then [last] else []
  }

  /** The first error of a sequence of model calls. */
  function FirstError(env: Env, c: Caches, ops: seq<Op>): Result<(), Error> {
    if ops == [] then Ok(())
    else
      var init, last := ops[..|ops| - 1], ops[|ops| - 1];
      var before := FirstError(env, c, init);
      if before.Err? then before
      else
        match Returned(env, After(env, c, init), last)
        case Answered(Err(e)) => Err(e)
        case _ => Ok(())
  }

  lemma {:induction false} ErrorStays(env: Env, c: Caches, ops: seq<Op>, more: seq<Op>)
    requires ops <= more && FirstError(env, c, ops).Err?
    ensures FirstError(env, c, more) == FirstError(env, c, ops)
    decreases |more|
  {
    if |ops| < |more| {
      assert more[..|more| - 1][..|ops|] == more[..|ops|] == ops;
      ErrorStays(env, c, ops, more[..|more| - 1]);
    } else {
      assert ops == more;
    }
  }

  function CallAll(m: Model, ps: seq<Prompt>): seq<Op> {
    seq(|ps|, i requires 0 <= i < |ps| => CallModel(m, ps[i]))
  }

  /** Every prompt of every workload, put to the workload's premium model. */
  function PremiumCalls(models: Models, ws: seq<Workload>): seq<Op> {
    if ws == [] then []
    else
      var w := ws[|ws| - 1];
      PremiumCalls(models, ws[..|ws| - 1]) + CallAll(Lookup(models, w.premiumModel), w.prompts)
  }

  lemma PremiumCallsNext(models: Models, ws: seq<Workload>, i: nat)
    requires i < |ws|
    ensures PremiumCalls(models, ws[..i + 1])
         == PremiumCalls(models, ws[..i]) + CallAll(Lookup(models, ws[i].premiumModel), ws[i].prompts)
  {
    assert ws[..i + 1][..i] == ws[..i];
  }

  lemma {:induction false} PremiumCallsPrefix(models: Models, ws: seq<Workload>, k: nat)
    requires k <= |ws|
    ensures PremiumCalls(models, ws[..k]) <= PremiumCalls(models, ws)
    decreases |ws|
  {
    if k < |ws| {
      assert ws[..|ws| - 1][..k] == ws[..k];
      PremiumCallsPrefix(models, ws[..|ws| - 1], k);
    } else {
      assert ws[..k] == ws;
    }
  }

  /** One routed request; a blocked one has no model, cost or quality. */
  datatype CallRecord = CallRecord(strategy: string, workload: string, team: string, promptID: string, modelID: string,
                                   scenario: string, isReal: bool, blocked: bool, usage: Usage, costEUR: real,
                                   latencyMS: int, routingNS: int, quality: real, win: string, sovViolation: bool, reroute: bool)

  // ---------- the engine ----------

  class Engine {
    const env: Env
    var answerCache: map<string, Response>
    var acceptCache: map<string, real>
    var pairCache: map<string, string>
    /** The log of routed calls. */
    var records: seq<CallRecord>
    /** The calls that went to a client, in order. */
    ghost var asked: seq<Op>

    constructor (env: Env)
      ensures this.env == env && Contents() == EMPTY && records == [] && asked == []
    {
      this.env := env;
      answerCache, acceptCache, pairCache := map[], map[], map[];
      records, asked := [], [];
    }

    ghost function Contents(): Caches
      reads this
    {
      Caches(answerCache, acceptCache, pairCache)
    }

    method CallModel(m: Model, p: Prompt) returns (r: Result<Response, Error>, live: bool)
      modifies `answerCache, `asked
      ensures Answered(r) == Returned(env, old(Contents()), Op.CallModel(m, p)) && live == m.isReal
      ensures Contents() == Left(env, old(Contents()), Op.CallModel(m, p))
      ensures asked == old(asked)
                       + if AsksClient(env, old(Contents()), Op.CallModel(m, p)) then [Op.CallModel(m, p)] else []
    {
      var key := Key(m.id, p.id);
      if !env.bypass {
        if key in answerCache {
          assert answerCache == answerCache[key := answerCache[key]];
          return Ok(answerCache[key]), m.isReal;
        }
      }
      if !m.isReal {
        var stub := Stub(m, p);
        if !env.bypass {
          answerCache := answerCache[key := stub];
        }
        return Ok(stub), false;
      }
      var msgs := [];
      if p.system != "" {
        msgs := msgs + [Message("system", p.system)];
      }
      msgs := msgs + [Message("user", p.text)];
      assert msgs == Messages(p);
      asked := asked + [Op.CallModel(m, p)];
      var chat := ClientFor(env, m)(m.apiModel, msgs, env.maxTokens, env.temp);
      if chat.Err? {
        return chat, true;
      }
      var answer := chat.value.(model := m.id);
      if !env.bypass {
        answerCache := answerCache[key := answer];
      }
      return Ok(answer), true;
    }

    method Acceptability(m: Model, p: Prompt, answer: string) returns (s: Result<real, Error>)
      modifies `acceptCache
      ensures Rated(s) == Returned(env, old(Contents()), Op.Acceptability(m, p, answer))
      ensures Contents() == Left(env, old(Contents()), Op.Acceptability(m, p, answer))
    {
      if !m.isReal {
        return Ok(1.0 + 4.0 * m.qualityPrior);
      }
      var key := Key(m.id, p.id);
      if !env.bypass {
        if key in acceptCache {
          assert acceptCache == acceptCache[key := acceptCache[key]];
          return Ok(acceptCache[key]);
        }
      }
      s := env.rate(p.text, answer);
      if s.Err? {
        return;
      }
      if !env.bypass {
        acceptCache := acceptCache[key := s.value];
      }
    }

    /** The one call that pays no attention to bypass. */
    method PairwiseVsPremium(m: Model, p: Prompt, premiumID: string, answer: string)
      returns (w: Result<string, Error>)
      modifies `pairCache
      ensures Compared(w) == Returned(env, old(Contents()), Op.PairwiseVsPremium(m, p, premiumID, answer))
      ensures Contents() == Left(env, old(Contents()), Op.PairwiseVsPremium(m, p, premiumID, answer))
    {
      if !m.isReal || m.id == premiumID {
        return Ok("tie");
      }
      var key := Key(m.id, p.id);
      if key in pairCache {
        assert pairCache == pairCache[key := pairCache[key]];
        return Ok(pairCache[key]);
      }
      if Key(premiumID, p.id) !in answerCache {
        return Ok("tie");
      }
      w := env.compare(p.text, answer, answerCache[Key(premiumID, p.id)].text);
      if w.Err? {
        return;
      }
      pairCache := pairCache[key := w.value];
    }

    /** The engine has made these calls since the given caches. */
    ghost predicate Reached(start: Caches, earlier: seq<Op>, calls: seq<Op>)
      reads this
    {
      Contents() == After(env, start, calls) && asked == earlier + Asked(env, start, calls)
    }

    /** All without error. */
    ghost predicate Made(start: Caches, earlier: seq<Op>, calls: seq<Op>)
      reads this
    {
      Reached(start, earlier, calls) && FirstError(env, start, calls).Ok?
    }

    /** The engine has stopped inside these calls, after the first one that failed. */
    ghost predicate StoppedIn(start: Caches, earlier: seq<Op>, calls: seq<Op>)
      reads this
    {
      exists k :: 0 < k <= |calls| && Reached(start, earlier, calls[..k])
                  && FirstError(env, start, calls[..k - 1]).Ok? && FirstError(env, start, calls[..k]).Err?
    }

    lemma StoppedInMore(start: Caches, earlier: seq<Op>, calls: seq<Op>, more: seq<Op>)
      requires StoppedIn(start, earlier, calls) && calls <= more
      ensures StoppedIn(start, earlier, more)
    {
      var k :| 0 < k <= |calls| && Reached(start, earlier, calls[..k])
               && FirstError(env, start, calls[..k - 1]).Ok? && FirstError(env, start, calls[..k]).Err?;
      assert more[..k] == calls[..k] && more[..k - 1] == calls[..k - 1];
    }

    /** One more call, as the last of a sequence. */
    method CallNext(m: Model, p: Prompt, ghost start: Caches, ghost earlier: seq<Op>, ghost calls: seq<Op>)
      returns (r: Result<(), Error>)
      requires Made(start, earlier, calls)
      modifies `answerCache, `asked
      ensures r == FirstError(env, start, calls + [Op.CallModel(m, p)])
      ensures r.Ok? ==> Made(start, earlier, calls + [Op.CallModel(m, p)])
      ensures r.Err? ==> StoppedIn(start, earlier, calls + [Op.CallModel(m, p)])
    {
      ghost var next := calls + [Op.CallModel(m, p)];
      assert next[..|next| - 1] == calls && next[..|next|] == next;
      var answer, live := CallModel(m, p);
      r := if answer.Ok? then Ok(()) else Err(answer.error);
    }

    /** The inner loop of the prewarm: one workload's prompts. */
    method CallEach(m: Model, ps: seq<Prompt>, ghost start: Caches, ghost earlier: seq<Op>, ghost calls: seq<Op>)
      returns (r: Result<(), Error>)
      requires Made(start, earlier, calls)
      modifies `answerCache, `asked
      ensures r == FirstError(env, start, calls + CallAll(m, ps))
      ensures r.Ok? ==> Made(start, earlier, calls + CallAll(m, ps))
      ensures r.Err? ==> StoppedIn(start, earlier, calls + CallAll(m, ps))
    {
      ghost var here := CallAll(m, ps);
      assert calls + here[..0] == calls;
      for j := 0 to |ps|
        invariant Made(start, earlier, calls + here[..j])
      {
        assert calls + here[..j] + [Op.CallModel(m, ps[j])] == calls + here[..j + 1];
        r := CallNext(m, ps[j], start, earlier, calls + here[..j]);
        if r.Err? {
          assert calls + here[..j + 1] <= calls + here;
          ErrorStays(env, start, calls + here[..j + 1], calls + here);
          StoppedInMore(start, earlier, calls + here[..j + 1], calls + here);
          return;
        }
      }
      assert here[..|ps|] == here;
      r := Ok(());
    }

    lemma StoppedForAll(start: Caches, earlier: seq<Op>, models: Models, ws: seq<Workload>, i: nat)
      requires i <= |ws| && StoppedIn(start, earlier, PremiumCalls(models, ws[..i]))
      requires FirstError(env, start, PremiumCalls(models, ws[..i])).Err?
      ensures StoppedIn(start, earlier, PremiumCalls(models, ws))
      ensures FirstError(env, start, PremiumCalls(models, ws)) == FirstError(env, start, PremiumCalls(models, ws[..i]))
    {
      PremiumCallsPrefix(models, ws, i);
      ErrorStays(env, start, PremiumCalls(models, ws[..i]), PremiumCalls(models, ws));
      StoppedInMore(start, earlier, PremiumCalls(models, ws[..i]), PremiumCalls(models, ws));
    }

    /** The premium calls that open the main matrix; an error stops them. */
    method Prewarm(models: Models, ws: seq<Workload>) returns (r: Result<(), Error>)
      modifies `answerCache, `asked
      ensures r == FirstError(env, old(Contents()), PremiumCalls(models, ws))
      ensures r.Ok? ==> Made(old(Contents()), old(asked), PremiumCalls(models, ws))
      ensures r.Err? ==> StoppedIn(old(Contents()), old(asked), PremiumCalls(models, ws))
    {
      ghost var start, earlier := Contents(), asked;
      for i := 0 to |ws|
        invariant Made(start, earlier, PremiumCalls(models, ws[..i]))
      {
        PremiumCallsNext(models, ws, i);
        r := CallEach(Lookup(models, ws[i].premiumModel), ws[i].prompts, start, earlier, PremiumCalls(models, ws[..i]));
        if r.Err? {
          StoppedForAll(start, earlier, models, ws, i + 1);
          return;
        }
      }
      assert ws[..|ws|] == ws;
      r := Ok(());
    }
  }
}
