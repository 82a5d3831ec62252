/** The caches of the engine never show: what holds of the calls of an engine over any sequence of calls. */
module CacheProperties {
  import opened Catalog
  import opened Engine
  import opened Workloads
  import opened Wrappers

  /** The models and prompts of an experiment, and the premium model each prompt is compared against. */
  datatype Universe = Universe(models: set<Model>, prompts: set<Prompt>, premium: Prompt -> Model)

  predicate SameOrApart(m: Model, p: Prompt, m': Model, p': Prompt) {
    Key(m.id, p.id) == Key(m'.id, p'.id) ==> m == m' && p == p'
  }

  /** A cache key tells its model and its prompt. */
  ghost predicate KeysTell(models: set<Model>, prompts: set<Prompt>) {
    forall m, m', p, p' {:trigger SameOrApart(m, p, m', p')}
      | m in models && m' in models && p in prompts && p' in prompts :: SameOrApart(m, p, m', p')
  }

  ghost predicate Proper(u: Universe) {
    KeysTell(u.models, u.prompts) && forall p | p in u.prompts :: u.premium(p) in u.models
  }

  // ---------- keys ----------

  lemma KeyParts(a: string, x: string)
    ensures Key(a, x)[..|a|] == a && Key(a, x)[|a|] == '|' && Key(a, x)[|a| + 1..] == x
  {
  }

  lemma KeySplits(a: string, x: string, b: string, y: string)
    requires Key(a, x) == Key(b, y) && |a| < |b|
    ensures b == a + "|" + b[|a| + 1..] && x == b[|a| + 1..] + "|" + y
  {
    var k := Key(a, x);
    KeyParts(a, x);
    KeyParts(b, y);
    assert b == k[..|b|] && b[..|a|] == k[..|a|] && b[|a|] == k[|a|];
    assert b == b[..|a|] + [b[|a|]] + b[|a| + 1..];
    assert x == k[|a| + 1..] == k[|a| + 1..|b|] + [k[|b|]] + k[|b| + 1..];
    assert b[|a| + 1..] == k[|a| + 1..|b|];
  }

  /** One model ID continues the other past a bar, and the other's prompt ID begins with the rest. */
  ghost predicate Overlap(a: string, x: string, b: string, y: string) {
    exists d: string :: b == a + "|" + d && x == d + "|" + y
  }

  lemma OverlapCollides(a: string, x: string, b: string, y: string)
    requires Overlap(a, x, b, y)
    ensures Key(a, x) == Key(b, y) && a != b
  {
    var d: string :| b == a + "|" + d && x == d + "|" + y;
    assert Key(a, x) == a + "|" + d + "|" + y;
  }

  lemma OverlapHasBars(a: string, x: string, b: string, y: string)
    requires Overlap(a, x, b, y)
    ensures '|' in b && '|' in x
  {
    var d: string :| b == a + "|" + d && x == d + "|" + y;
    assert b[|a|] == '|' && x[|d|] == '|';
  }

  /** Two different pairs of IDs share a key exactly when they overlap around a bar. */
  lemma KeysCollide(a: string, x: string, b: string, y: string)
    ensures Key(a, x) == Key(b, y) && !(a == b && x == y) <==> Overlap(a, x, b, y) || Overlap(b, y, a, x)
  {
    if Key(a, x) == Key(b, y) {
      if |a| < |b| {
        KeySplits(a, x, b, y);
      } else if |b| < |a| {
        KeySplits(b, y, a, x);
      } else {
        KeyParts(a, x);
        KeyParts(b, y);
      }
    }
    if Overlap(a, x, b, y) { OverlapCollides(a, x, b, y); }
    if Overlap(b, y, a, x) { OverlapCollides(b, y, a, x); }
  }

  /** The IDs of a key whose model or prompt IDs have no bar. */
  lemma KeyInjective(a: string, x: string, b: string, y: string)
    requires Key(a, x) == Key(b, y)
    requires ('|' !in a && '|' !in b) || ('|' !in x && '|' !in y)
    ensures a == b && x == y
  {
    KeysCollide(a, x, b, y);
    if Overlap(a, x, b, y) { OverlapHasBars(a, x, b, y); }
    if Overlap(b, y, a, x) { OverlapHasBars(b, y, a, x); }
  }

  /** So bars must occur on both sides: unique IDs are enough when either the models or the prompts have none. */
  lemma KeysTellWithoutBars(models: set<Model>, prompts: set<Prompt>)
    requires forall m, m' | m in models && m' in models && m.id == m'.id :: m == m'
    requires forall p, p' | p in prompts && p' in prompts && p.id == p'.id :: p == p'
    requires (forall m | m in models :: '|' !in m.id) || (forall p | p in prompts :: '|' !in p.id)
    ensures KeysTell(models, prompts)
  {
    forall m, m', p, p' | m in models && m' in models && p in prompts && p' in prompts
      ensures SameOrApart(m, p, m', p')
    {
      if Key(m.id, p.id) == Key(m'.id, p'.id) {
        KeyInjective(m.id, p.id, m'.id, p'.id);
      }
    }
  }

  // ---------- when answers are transparent ----------

  predicate CallsOver(ms: set<Model>, ps: set<Prompt>, op: Op) {
    op.CallModel? && op.m in ms && op.p in ps
  }

  ghost predicate AllCalls(ms: set<Model>, ps: set<Prompt>, ops: seq<Op>) {
    forall op | op in ops :: CallsOver(ms, ps, op)
  }

  predicate AnswersAgree(env: Env, m: Model, p: Prompt, m': Model, p': Prompt) {
    Key(m.id, p.id) == Key(m'.id, p'.id) && Answer(env, m, p).Ok? ==> Answer(env, m', p') == Answer(env, m, p)
  }

  /** Whatever shares a key is answered alike. */
  ghost predicate KeysDecide(env: Env, ms: set<Model>, ps: set<Prompt>) {
    forall m, m', p, p' | m in ms && m' in ms && p in ps && p' in ps :: AnswersAgree(env, m, p, m', p')
  }

  /** After these calls, this call is answered as without a cache. */
  predicate Transparent(env: Env, ops: seq<Op>, op: Op)
    requires op.CallModel?
  {
    Returned(env, After(env, EMPTY, ops), op) == Answered(Answer(env, op.m, op.p))
  }

  lemma {:induction false} CachedByCall(env: Env, ms: set<Model>, ps: set<Prompt>, ops: seq<Op>, key: string)
    returns (op: Op)
    requires AllCalls(ms, ps, ops) && key in After(env, EMPTY, ops).answers
    requires KeysDecide(env, ms, ps)
    ensures CallsOver(ms, ps, op) && Key(op.m.id, op.p.id) == key
    ensures Answer(env, op.m, op.p) == Ok(After(env, EMPTY, ops).answers[key])
  {
    var init, last := ops[..|ops| - 1], ops[|ops| - 1];
    assert CallsOver(ms, ps, last);
    var before := After(env, EMPTY, init);
    if key in before.answers {
      op := CachedByCall(env, ms, ps, init, key);
      if Key(last.m.id, last.p.id) == key && Answer(env, last.m, last.p).Ok? {
        assert AnswersAgree(env, op.m, op.p, last.m, last.p);
      }
    } else {
      op := last;
    }
  }

  /**
   From an empty cache, model calls are answered as without a cache, whatever was called before, exactly when
   pairs of model and prompt that share a key are answered alike.
   */
  lemma AnswersTransparentIff(env: Env, ms: set<Model>, ps: set<Prompt>)
    requires !env.bypass
    ensures KeysDecide(env, ms, ps)
        <==> forall ops, op | AllCalls(ms, ps, ops) && CallsOver(ms, ps, op) :: Transparent(env, ops, op)
  {
    if KeysDecide(env, ms, ps) {
      forall ops, op | AllCalls(ms, ps, ops) && CallsOver(ms, ps, op) ensures Transparent(env, ops, op) {
        if Key(op.m.id, op.p.id) in After(env, EMPTY, ops).answers {
          var source := CachedByCall(env, ms, ps, ops, Key(op.m.id, op.p.id));
          assert AnswersAgree(env, source.m, source.p, op.m, op.p);
        }
      }
    } else {
      var m, m', p, p' :| m in ms && m' in ms && p in ps && p' in ps && !AnswersAgree(env, m, p, m', p');
      SecondCallStale(env, CallModel(m, p), CallModel(m', p'));
      assert AllCalls(ms, ps, [CallModel(m, p)]) && CallsOver(ms, ps, CallModel(m', p'));
    }
  }

  /** A second call under the same key is answered with the first answer. */
  lemma SecondCallStale(env: Env, first: Op, second: Op)
    requires !env.bypass && first.CallModel? && second.CallModel?
    requires Key(first.m.id, first.p.id) == Key(second.m.id, second.p.id) && Answer(env, first.m, first.p).Ok?
    ensures Returned(env, After(env, EMPTY, [first]), second) == Answered(Answer(env, first.m, first.p))
  {
    assert [first][..0] == [];
  }

  /** A witness: two modeled models, two prompts, one key, and the second call gets the first one's answer. */
  lemma BarInModelID(env: Env) returns (first: Op, second: Op)
    requires !env.bypass
    ensures first.CallModel? && second.CallModel? && first.m.id != second.m.id && first.p.id != second.p.id
    ensures Returned(env, After(env, EMPTY, [first]), second) != Answered(Answer(env, second.m, second.p))
  {
    first := CallModel(ZERO_MODEL.(id := "a|b"), Prompt("c", "", false, ""));
    second := CallModel(ZERO_MODEL.(id := "a"), Prompt("b|c", "", false, ""));
    assert Key("a|b", "c") == "a|b|c" == Key("a", "b|c");
    SecondCallStale(env, first, second);
  }

  // ---------- consistency ----------

  /** What the caches hold under the key of a model and a prompt is what the uncached engine returns. */
  predicate TrueAt(env: Env, u: Universe, c: Caches, m: Model, p: Prompt) {
    var key, answer := Key(m.id, p.id), Answer(env, m, p);
    && (key in c.answers ==> answer == Ok(c.answers[key]))
    && (key in c.accept && m.isReal ==> answer.Ok? && Rating(env, m, p, answer.value.text) == Ok(c.accept[key]))
    && (key in c.pair && m.isReal && m.id != u.premium(p).id ==>
          answer.Ok? && Verdict(env, m, p, u.premium(p), answer.value.text) == Ok(c.pair[key]))
  }

  ghost predicate Consistent(env: Env, u: Universe, c: Caches) {
    forall m, p {:trigger TrueAt(env, u, c, m, p)} | m in u.models && p in u.prompts :: TrueAt(env, u, c, m, p)
  }

  /** The calls an experiment makes: a judge is asked about the model's own answer, against the prompt's premium. */
  predicate Honest(env: Env, u: Universe, op: Op) {
    && op.m in u.models && op.p in u.prompts
    && (!op.CallModel? ==> Answer(env, op.m, op.p).Ok? && op.answer == Answer(env, op.m, op.p).value.text)
    && (op.PairwiseVsPremium? ==> op.premiumID == u.premium(op.p).id)
  }

  function Uncached(env: Env, u: Universe, op: Op): Outcome {
    match op
    case CallModel(m, p) => Answered(Answer(env, m, p))
    case Acceptability(m, p, answer) => Rated(Rating(env, m, p, answer))
    case PairwiseVsPremium(m, p, _, answer) => Compared(Verdict(env, m, p, u.premium(p), answer))
  }

  /** The reference a comparison needs is cached. */
  predicate HasReference(c: Caches, op: Op) {
    op.PairwiseVsPremium? ==> Key(op.premiumID, op.p.id) in c.answers
  }

  lemma ConsistentCall(env: Env, u: Universe, c: Caches, op: Op)
    requires Proper(u) && Consistent(env, u, c) && Honest(env, u, op) && HasReference(c, op)
    ensures Returned(env, c, op) == Uncached(env, u, op)
  {
    assert TrueAt(env, u, c, op.m, op.p);
    assert TrueAt(env, u, c, u.premium(op.p), op.p);
  }

  lemma ConsistentKept(env: Env, u: Universe, c: Caches, op: Op)
    requires Proper(u) && Consistent(env, u, c) && Honest(env, u, op)
    ensures Consistent(env, u, Left(env, c, op))
  {
    var c' := Left(env, c, op);
    forall m, p | m in u.models && p in u.prompts ensures TrueAt(env, u, c', m, p) {
      assert TrueAt(env, u, c, m, p);
      if Key(m.id, p.id) == Key(op.m.id, op.p.id) {
        assert SameOrApart(m, p, op.m, op.p);
        assert TrueAt(env, u, c, u.premium(p), p);
      }
    }
  }

  lemma {:induction false} ConsistentAfter(env: Env, u: Universe, c: Caches, ops: seq<Op>)
    requires Proper(u) && Consistent(env, u, c) && forall op | op in ops :: Honest(env, u, op)
    ensures Consistent(env, u, After(env, c, ops))
  {
    if ops != [] {
      ConsistentAfter(env, u, c, ops[..|ops| - 1]);
      ConsistentKept(env, u, After(env, c, ops[..|ops| - 1]), ops[|ops| - 1]);
    }
  }

  /**
   After any sequence of calls a call returns what an engine without caches would; a comparison needs its
   reference to be cached by then.
   */
  lemma CachesTransparent(env: Env, u: Universe, c: Caches, ops: seq<Op>, op: Op)
    requires Proper(u) && Consistent(env, u, c)
    requires Honest(env, u, op) && forall o | o in ops :: Honest(env, u, o)
    ensures HasReference(After(env, c, ops), op) ==> Returned(env, After(env, c, ops), op) == Uncached(env, u, op)
  {
    ConsistentAfter(env, u, c, ops);
    if HasReference(After(env, c, ops), op) {
      ConsistentCall(env, u, After(env, c, ops), op);
    }
  }

  lemma EmptyConsistent(env: Env, u: Universe)
    ensures Consistent(env, u, EMPTY)
  {
    forall m, p | m in u.models && p in u.prompts ensures TrueAt(env, u, EMPTY, m, p) {
    }
  }

  /** An engine straight from New never shows its caches, as long as keys tell models and prompts apart. */
  lemma NewEngineTransparent(env: Env, u: Universe, ops: seq<Op>, op: Op)
    requires Proper(u) && Honest(env, u, op) && forall o | o in ops :: Honest(env, u, o)
    ensures HasReference(After(env, EMPTY, ops), op) ==> Returned(env, After(env, EMPTY, ops), op) == Uncached(env, u, op)
  {
    EmptyConsistent(env, u);
    CachesTransparent(env, u, EMPTY, ops, op);
  }

  // ---------- ratings ----------

  /** A successful rating of a live model under the key. */
  predicate RatesUnder(env: Env, op: Op, key: string) {
    && op.Acceptability? && op.m.isReal && Key(op.m.id, op.p.id) == key
    && Rating(env, op.m, op.p, op.answer).Ok?
  }

  /** The first of these calls that rates successfully under the key. */
  function FirstRating(env: Env, ops: seq<Op>, key: string): Option<real> {
    if ops == [] then None
    else
      var before, last := FirstRating(env, ops[..|ops| - 1], key), ops[|ops| - 1];
      if before.Some? then before
      else if RatesUnder(env, last, key) then Some(Rating(env, last.m, last.p, last.answer).value)
      else None
  }

  lemma {:induction false} RatingCached(env: Env, ops: seq<Op>, key: string)
    requires !env.bypass
    ensures FirstRating(env, ops, key)
         == if key in After(env, EMPTY, ops).accept then Some(After(env, EMPTY, ops).accept[key]) else None
  {
    if ops != [] {
      RatingCached(env, ops[..|ops| - 1], key);
      RatingCached(env, ops[..|ops| - 1], Key(ops[|ops| - 1].m.id, ops[|ops| - 1].p.id));
    }
  }

  /**
   After any calls of a new engine, a live model's answer gets the rating of the first answer successfully rated
   under the key, whatever that answer was; only without one is the judge asked.
   */
  lemma RatingIgnoresAnswer(env: Env, ops: seq<Op>, m: Model, p: Prompt, answer: string)
    requires !env.bypass && m.isReal
    ensures Returned(env, After(env, EMPTY, ops), Acceptability(m, p, answer))
         == Rated(match FirstRating(env, ops, Key(m.id, p.id))
                  case Some(q) => Ok(q)
                  case None => Rating(env, m, p, answer))
  {
    RatingCached(env, ops, Key(m.id, p.id));
  }

  predicate RatesOver(ms: set<Model>, ps: set<Prompt>, answers: set<string>, op: Op) {
    op.Acceptability? && op.m in ms && op.m.isReal && op.p in ps && op.answer in answers
  }

  ghost predicate AllRatings(ms: set<Model>, ps: set<Prompt>, answers: set<string>, ops: seq<Op>) {
    forall op | op in ops :: RatesOver(ms, ps, answers, op)
  }

  function RatingOf(env: Env, op: Op): Result<real, Error>
    requires op.Acceptability?
  {
    Rating(env, op.m, op.p, op.answer)
  }

  predicate RatedAlike(env: Env, first: Op, second: Op)
    requires first.Acceptability? && second.Acceptability?
  {
    Key(first.m.id, first.p.id) == Key(second.m.id, second.p.id) && RatingOf(env, first).Ok? ==>
      RatingOf(env, second) == RatingOf(env, first)
  }

  /** After these calls this answer gets its own rating. */
  predicate FairlyRated(env: Env, ops: seq<Op>, op: Op)
    requires op.Acceptability?
  {
    Returned(env, After(env, EMPTY, ops), op) == Rated(RatingOf(env, op))
  }

  lemma {:induction false} FirstRatingBy(env: Env, ops: seq<Op>, key: string) returns (op: Op)
    requires FirstRating(env, ops, key).Some?
    ensures op in ops && RatesUnder(env, op, key)
    ensures RatingOf(env, op) == Ok(FirstRating(env, ops, key).value)
  {
    var init, last := ops[..|ops| - 1], ops[|ops| - 1];
    if FirstRating(env, init, key).Some? {
      op := FirstRatingBy(env, init, key);
    } else {
      op := last;
    }
  }

  /**
   Over any live models, prompts and answers: whatever was rated before, each answer gets its own rating, exactly
   when answers under one key are rated alike.
   */
  lemma RatingsFairIff(env: Env, ms: set<Model>, ps: set<Prompt>, answers: set<string>)
    requires !env.bypass
    ensures (forall x, y | RatesOver(ms, ps, answers, x) && RatesOver(ms, ps, answers, y) :: RatedAlike(env, x, y))
        <==> forall ops, op | AllRatings(ms, ps, answers, ops) && RatesOver(ms, ps, answers, op) :: FairlyRated(env, ops, op)
  {
    if forall x, y | RatesOver(ms, ps, answers, x) && RatesOver(ms, ps, answers, y) :: RatedAlike(env, x, y) {
      forall ops, op | AllRatings(ms, ps, answers, ops) && RatesOver(ms, ps, answers, op) ensures FairlyRated(env, ops, op) {
        var key := Key(op.m.id, op.p.id);
        RatingIgnoresAnswer(env, ops, op.m, op.p, op.answer);
        if FirstRating(env, ops, key).Some? {
          var first := FirstRatingBy(env, ops, key);
          assert RatedAlike(env, first, op);
        }
      }
    } else {
      var x, y :| RatesOver(ms, ps, answers, x) && RatesOver(ms, ps, answers, y) && !RatedAlike(env, x, y);
      SecondRatingStale(env, x, y);
      assert AllRatings(ms, ps, answers, [x]);
    }
  }

  /** A second rating under the same key is the first one again. */
  lemma SecondRatingStale(env: Env, first: Op, second: Op)
    requires !env.bypass && first.Acceptability? && second.Acceptability? && first.m.isReal && second.m.isReal
    requires Key(first.m.id, first.p.id) == Key(second.m.id, second.p.id) && RatingOf(env, first).Ok?
    ensures Returned(env, After(env, EMPTY, [first]), second) == Rated(RatingOf(env, first))
  {
    var key := Key(second.m.id, second.p.id);
    assert [first][..0] == [];
    assert FirstRating(env, [], key) == None;
    assert FirstRating(env, [first], key) == Some(RatingOf(env, first).value);
    RatingIgnoresAnswer(env, [first], second.m, second.p, second.answer);
  }

  /** A witness: a judge that rates a longer answer higher, and one prompt answered twice. */
  lemma RatingWitness(env: Env) returns (first: Op, second: Op)
    requires !env.bypass && env.rate == ((text, answer) => Ok(|answer| as real))
    ensures first.Acceptability? && second.Acceptability? && first.m == second.m && first.p == second.p
    ensures Returned(env, After(env, EMPTY, [first]), second) == Rated(Ok(2.0)) != Rated(RatingOf(env, second))
  {
    var m, p := ZERO_MODEL.(id := "m", isReal := true), Prompt("p", "", false, "");
    first, second := Acceptability(m, p, "no"), Acceptability(m, p, "yes");
    SecondRatingStale(env, first, second);
  }

  // ---------- at most one successful query ----------

  /** How many of these calls got an answer under the key. */
  function Successes(env: Env, asked: seq<Op>, key: string): nat {
    if asked == [] then 0
    else
      var op := asked[|asked| - 1];
      Successes(env, asked[..|asked| - 1], key)
      + if Key(op.m.id, op.p.id) == key && Answer(env, op.m, op.p).Ok? then 1 else 0
  }

  /** A key is answered by a client at most once, and never when it was cached to begin with. */
  lemma {:induction false} OneQueryPerKey(env: Env, c: Caches, ops: seq<Op>, key: string)
    requires !env.bypass
    ensures Successes(env, Asked(env, c, ops), key) <= if key in c.answers then 0 else 1
    ensures Successes(env, Asked(env, c, ops), key) == 1 ==> key in After(env, c, ops).answers
    ensures key in c.answers ==> key in After(env, c, ops).answers
  {
    if ops != [] {
      var init, last := ops[..|ops| - 1], ops[|ops| - 1];
      OneQueryPerKey(env, c, init, key);
      var before := Asked(env, c, init);
      assert (before + [last])[..|before|] == before && before + [] == before;
    }
  }

  lemma {:induction false} AnswersGrow(env: Env, c: Caches, ops: seq<Op>, more: seq<Op>, key: string)
    requires ops <= more && key in After(env, c, ops).answers
    ensures key in After(env, c, more).answers
    decreases |more|
  {
    if |ops| < |more| {
      assert more[..|more| - 1][..|ops|] == more[..|ops|] == ops;
      AnswersGrow(env, c, ops, more[..|more| - 1], key);
    } else {
      assert ops == more;
    }
  }

  // ---------- bypass ----------

  /** The comparison of a live model other than the premium: the one call that goes to a cache under bypass. */
  predicate Compares(op: Op) {
    op.PairwiseVsPremium? && op.m.isReal && op.m.id != op.premiumID
  }

  /** With bypass a call writes a cache exactly when it is a comparison the judge newly decides. */
  lemma BypassWrites(env: Env, c: Caches, op: Op)
    requires env.bypass
    ensures Left(env, c, op) != c
        <==> && Compares(op) && Key(op.m.id, op.p.id) !in c.pair && Key(op.premiumID, op.p.id) in c.answers
             && env.compare(op.p.text, op.answer, c.answers[Key(op.premiumID, op.p.id)].text).Ok?
  {
    if Compares(op) && Key(op.m.id, op.p.id) in c.pair {
      var key := Key(op.m.id, op.p.id);
      assert c.pair[key := c.pair[key]] == c.pair;
    }
  }

  /** With bypass the outcome of a call is the same for all caches exactly when it is no such comparison. */
  lemma BypassReads(env: Env, op: Op)
    requires env.bypass
    ensures (forall c, c' :: Returned(env, c, op) == Returned(env, c', op)) <==> !Compares(op)
  {
    if Compares(op) {
      var key := Key(op.m.id, op.p.id);
      var win, lose := EMPTY.(pair := map[key := "win"]), EMPTY.(pair := map[key := "lose"]);
      assert win.pair[key] == "win" && lose.pair[key] == "lose";
      assert Returned(env, win, op) == Compared(Ok("win")) && Returned(env, lose, op) == Compared(Ok("lose"));
    }
  }

  /** A witness: with the reference cached, a comparison under bypass leaves a verdict behind. */
  lemma BypassWitness(env: Env, m: Model, p: Prompt, premiumID: string, answer: string, reference: Response)
    requires env.bypass && m.isReal && m.id != premiumID && env.compare(p.text, answer, reference.text).Ok?
    ensures var c := EMPTY.(answers := map[Key(premiumID, p.id) := reference]);
      Left(env, c, PairwiseVsPremium(m, p, premiumID, answer)) != c
  {
    BypassWrites(env, EMPTY.(answers := map[Key(premiumID, p.id) := reference]), PairwiseVsPremium(m, p, premiumID, answer));
  }

  /** Without a cached answer there is no reference: over any calls, comparisons included, the caches stay as they are. */
  lemma {:induction false} BypassFromNew(env: Env, c: Caches, ops: seq<Op>)
    requires env.bypass && c.answers == map[]
    ensures After(env, c, ops) == c
  {
    if ops != [] {
      BypassFromNew(env, c, ops[..|ops| - 1]);
      BypassWrites(env, c, ops[|ops| - 1]);
    }
  }

  /** With bypass, calls and ratings neither read nor write a cache. */
  lemma {:induction false} BypassTouchesNothing(env: Env, c: Caches, ops: seq<Op>, u: Universe, op: Op)
    requires env.bypass && !op.PairwiseVsPremium? && forall o | o in ops :: !o.PairwiseVsPremium?
    ensures After(env, c, ops) == c
    ensures Returned(env, c, op) == Uncached(env, u, op)
  {
    if ops != [] {
      BypassTouchesNothing(env, c, ops[..|ops| - 1], u, op);
    }
  }

  // ---------- the premium prewarm ----------

  lemma {:induction false} EveryCallCached(env: Env, c: Caches, ops: seq<Op>, op: Op)
    requires !env.bypass && op in ops && FirstError(env, c, ops).Ok? && forall o | o in ops :: o.CallModel?
    ensures Key(op.m.id, op.p.id) in After(env, c, ops).answers
  {
    var init, last := ops[..|ops| - 1], ops[|ops| - 1];
    if op in init {
      EveryCallCached(env, c, init, op);
    } else {
      assert op == last;
    }
  }

  lemma {:induction false} PremiumCallIn(models: Models, ws: seq<Workload>, w: Workload, p: Prompt)
    requires w in ws && p in w.prompts
    ensures CallModel(Lookup(models, w.premiumModel), p) in PremiumCalls(models, ws)
  {
    var init, last := ws[..|ws| - 1], ws[|ws| - 1];
    if w in init {
      PremiumCallIn(models, init, w, p);
    } else {
      var j :| 0 <= j < |w.prompts| && w.prompts[j] == p;
      assert CallAll(Lookup(models, w.premiumModel), w.prompts)[j] == CallModel(Lookup(models, w.premiumModel), p);
    }
  }

  /** Prewarming asks catalog models, or the zero model for a premium that is not in the catalog. */
  lemma {:induction false} PremiumCallsKnown(models: Models, ws: seq<Workload>)
    requires Keyed(models)
    ensures forall op | op in PremiumCalls(models, ws) :: op.CallModel? && InCatalog(models, op.m)
  {
    if ws != [] {
      PremiumCallsKnown(models, ws[..|ws| - 1]);
    }
  }

  predicate InCatalog(models: Models, m: Model) {
    m == ZERO_MODEL || (m.id in models && models[m.id] == m)
  }

  /** Every cached answer is under the key of a model that was called. */
  lemma {:induction false} AnswersOfCalled(env: Env, ops: seq<Op>, key: string)
    requires key in After(env, EMPTY, ops).answers
    ensures exists op | op in ops :: op.CallModel? && Key(op.m.id, op.p.id) == key
  {
    var init, last := ops[..|ops| - 1], ops[|ops| - 1];
    if key in After(env, EMPTY, init).answers {
      AnswersOfCalled(env, init, key);
    }
  }

  /**
   After a successful prewarm from empty caches, whatever calls of catalog models come next, a prompt's premium
   reference is cached exactly when the premium model is in the catalog (or has no name).
   */
  lemma ReferenceCached(env: Env, models: Models, ws: seq<Workload>, ops: seq<Op>, w: Workload, p: Prompt)
    requires !env.bypass && Keyed(models) && w in ws && p in w.prompts
    requires '|' !in w.premiumModel && forall id | id in models :: '|' !in id
    requires FirstError(env, EMPTY, PremiumCalls(models, ws)).Ok?
    requires forall op | op in ops && op.CallModel? :: InCatalog(models, op.m)
    ensures Key(w.premiumModel, p.id) in After(env, EMPTY, PremiumCalls(models, ws) + ops).answers
        <==> w.premiumModel in models || w.premiumModel == ""
  {
    var calls := PremiumCalls(models, ws);
    var key := Key(w.premiumModel, p.id);
    PremiumCallsKnown(models, ws);
    PremiumCallIn(models, ws, w, p);
    EveryCallCached(env, EMPTY, calls, CallModel(Lookup(models, w.premiumModel), p));
    AnswersGrow(env, EMPTY, calls, calls + ops, Key(Lookup(models, w.premiumModel).id, p.id));
    if key in After(env, EMPTY, calls + ops).answers {
      AnswersOfCalled(env, calls + ops, key);
      var op :| op in calls + ops && op.CallModel? && Key(op.m.id, op.p.id) == key;
      assert InCatalog(models, op.m);
      KeyInjective(op.m.id, op.p.id, w.premiumModel, p.id);
    }
  }

  /**
   So a comparison of a workload's prompt takes the missing-reference branch exactly when its premium model is named
   but missing from the catalog and no verdict is cached for the prompt.
   */
  lemma ReferenceMissingIff(env: Env, models: Models, ws: seq<Workload>, ops: seq<Op>, w: Workload, op: Op)
    requires !env.bypass && Keyed(models) && w in ws
    requires '|' !in w.premiumModel && forall id | id in models :: '|' !in id
    requires FirstError(env, EMPTY, PremiumCalls(models, ws)).Ok?
    requires forall o | o in ops && o.CallModel? :: InCatalog(models, o.m)
    requires Compares(op) && op.p in w.prompts && op.premiumID == w.premiumModel
    ensures var c := After(env, EMPTY, PremiumCalls(models, ws) + ops);
      MissesReference(c, op)
      <==> w.premiumModel !in models && w.premiumModel != "" && Key(op.m.id, op.p.id) !in c.pair
  {
    ReferenceCached(env, models, ws, ops, w, op.p);
  }

  /** With the premium model in the catalog, the comparisons of the main matrix never take the missing-reference branch. */
  lemma ReferenceNeverMissing(env: Env, c: Caches, models: Models, ws: seq<Workload>, ops: seq<Op>,
                              w: Workload, op: Op)
    requires !env.bypass && Keyed(models) && w in ws && w.premiumModel in models
    requires FirstError(env, c, PremiumCalls(models, ws)).Ok?
    requires op.PairwiseVsPremium? && op.p in w.prompts && op.premiumID == w.premiumModel
    ensures HasReference(After(env, c, PremiumCalls(models, ws) + ops), op)
    ensures !MissesReference(After(env, c, PremiumCalls(models, ws) + ops), op)
  {
    var calls := PremiumCalls(models, ws);
    PremiumCallsKnown(models, ws);
    PremiumCallIn(models, ws, w, op.p);
    EveryCallCached(env, c, calls, CallModel(Lookup(models, w.premiumModel), op.p));
    AnswersGrow(env, c, calls, calls + ops, Key(w.premiumModel, op.p.id));
  }
}
