/** The routing strategies (experimentation/internal/router/router.go). */
module Router {
  import opened Catalog
  import opened Perms
  import opened Sorting

  // ---------- requests and decisions ----------

  datatype Scenario = Scenario(name: string, allowedZones: seq<string>, forbiddenZones: seq<string>,
                               externalProvidersAllowed: bool)

  const GLOBAL := Scenario("global", [], [], true)
  const EU_ONLY := Scenario("eu-only", ["EU"], [], true)
  const FRANCE_ONLY := Scenario("france-only", ["FR"], [], true)
  const NO_EXTERNAL := Scenario("no-external-sensitive", [], [], false)
  const SELF_HOSTED := Scenario("self-hosted-only", ["FR"], [], false)

  const SCENARIOS := [GLOBAL, EU_ONLY, FRANCE_ONLY, NO_EXTERNAL, SELF_HOSTED]

  datatype Request = Request(namespace: string, sensitive: bool, allowedModels: seq<string>,
                             premiumModel: string, minQuality: real, budgetTotalEUR: real,
                             budgetUsedEUR: real, scenario: Scenario, estInputTokens: nat,
                             estOutputTokens: nat)

  /** An outcome without its message texts, which are functions of the rest. */
  datatype Decision = Decision(modelID: string, expectedCostEUR: real, rejectedModels: seq<string>,
                               fallback: bool, blocked: bool)

  /** The zone normalisation of the operator's sovereignty engine; only its codes for EU and FR matter. */
  type Normalizer = string -> string

  ghost predicate FixesCodes(norm: Normalizer) {
    norm("EU") == "EU" && norm("FR") == "FR"
  }

  function TokenCost(m: Model, inTok: nat, outTok: nat): real {
    inTok as real / 1000000.0 * m.inPerMillion + outTok as real / 1000000.0 * m.outPerMillion
  }

  function EstCost(ctx: Request): Model -> real {
    m => TokenCost(m, ctx.estInputTokens, ctx.estOutputTokens)
  }

  // ---------- the sovereignty filter ----------

  const EU_MEMBERS := {"FR", "DE", "ES", "IT", "NL", "BE", "LU", "IE", "PT", "AT", "FI", "SE", "DK", "PL"}

  predicate ZoneAllowed(norm: Normalizer, zone: string, allowed: seq<string>) {
    exists a | a in allowed :: norm(a) == zone || (norm(a) == "EU" && zone in EU_MEMBERS)
  }

  predicate Violates(norm: Normalizer, m: Model, s: Scenario, sensitive: bool) {
    || (exists f | f in s.forbiddenZones :: norm(f) == norm(m.zone))
    || (s.allowedZones != [] && !ZoneAllowed(norm, norm(m.zone), s.allowedZones))
    || (sensitive && !s.externalProvidersAllowed && m.managed)
  }

  predicate Complies(norm: Normalizer, ctx: Request, models: Models, id: string) {
    id in models && !Violates(norm, models[id], ctx.scenario, ctx.sensitive)
  }

  function Compliant(norm: Normalizer, ctx: Request, models: Models, ids: seq<string>): seq<Model> {
    if ids == [] then []
    else (if Complies(norm, ctx, models, ids[0]) then [models[ids[0]]] else [])
         + Compliant(norm, ctx, models, ids[1..])
  }

  function Refused(norm: Normalizer, ctx: Request, models: Models, ids: seq<string>): seq<string> {
    if ids == [] then []
    else (if ids[0] in models && !Complies(norm, ctx, models, ids[0]) then [ids[0]] else [])
         + Refused(norm, ctx, models, ids[1..])
  }

  // ---------- string order ----------

  predicate StrLe(a: string, b: string) {
    a == "" || (b != "" && (a[0] < b[0] || (a[0] == b[0] && StrLe(a[1..], b[1..]))))
  }

  lemma {:induction false} StrLeTotal(a: string, b: string)
    ensures StrLe(a, b) || StrLe(b, a)
    ensures StrLe(a, b) && StrLe(b, a) ==> a == b
  {
    if a != "" && b != "" {
      StrLeTotal(a[1..], b[1..]);
      assert a == [a[0]] + a[1..] && b == [b[0]] + b[1..];
    }
  }

  lemma {:induction false} StrLeTransitive(a: string, b: string, c: string)
    requires StrLe(a, b) && StrLe(b, c)
    ensures StrLe(a, c)
  {
    if a != "" && a[0] == b[0] == c[0] {
      StrLeTransitive(a[1..], b[1..], c[1..]);
    }
  }

  predicate IdLe(x: Model, y: Model) {
    StrLe(x.id, y.id)
  }

  lemma StringOrders()
    ensures TotalPreorder(StrLe) && TotalPreorder(IdLe)
  {
    forall a, b ensures StrLe(a, b) || StrLe(b, a) { StrLeTotal(a, b); }
    forall a, b, c | StrLe(a, b) && StrLe(b, c) ensures StrLe(a, c) { StrLeTransitive(a, b, c); }
  }

  // ---------- candidates ----------

  /** The allowed, compliant models by ID. */
  function Candidates(norm: Normalizer, ctx: Request, models: Models): seq<Model> {
    Sort(Compliant(norm, ctx, models, ctx.allowedModels), IdLe)
  }

  /** The allowed models the sovereignty filter rejects, by ID. */
  function RejectedIDs(norm: Normalizer, ctx: Request, models: Models): seq<string> {
    Sort(Refused(norm, ctx, models, ctx.allowedModels), StrLe)
  }

  lemma Associates<T>(a: seq<T>, b: seq<T>, c: seq<T>)
    ensures a + (b + c) == (a + b) + c
  {
  }

  lemma {:induction false} CompliantConcat(norm: Normalizer, ctx: Request, models: Models, s: seq<string>, t: seq<string>)
    ensures Compliant(norm, ctx, models, s + t) == Compliant(norm, ctx, models, s) + Compliant(norm, ctx, models, t)
    ensures Refused(norm, ctx, models, s + t) == Refused(norm, ctx, models, s) + Refused(norm, ctx, models, t)
  {
    if s == [] {
      assert s + t == t;
    } else {
      var u := s + t;
      assert u[1..] == s[1..] + t && u[0] == s[0];
      CompliantConcat(norm, ctx, models, s[1..], t);
      var x := if Complies(norm, ctx, models, s[0]) then [models[s[0]]] else [];
      var y := if s[0] in models && !Complies(norm, ctx, models, s[0]) then [s[0]] else [];
      Associates(x, Compliant(norm, ctx, models, s[1..]), Compliant(norm, ctx, models, t));
      Associates(y, Refused(norm, ctx, models, s[1..]), Refused(norm, ctx, models, t));
    }
  }

  method FindCandidates(norm: Normalizer, ctx: Request, models: Models)
    returns (ok: seq<Model>, rejected: seq<string>)
    ensures ok == Candidates(norm, ctx, models) && rejected == RejectedIDs(norm, ctx, models)
  {
    ok, rejected := [], [];
    var ids := ctx.allowedModels;
    for i := 0 to |ids|
      invariant ok == Compliant(norm, ctx, models, ids[..i])
      invariant rejected == Refused(norm, ctx, models, ids[..i])
    {
      assert ids[..i + 1] == ids[..i] + [ids[i]];
      CompliantConcat(norm, ctx, models, ids[..i], [ids[i]]);
      if ids[i] in models {
        if Violates(norm, models[ids[i]], ctx.scenario, ctx.sensitive) {
          rejected := rejected + [ids[i]];
        } else {
          ok := ok + [models[ids[i]]];
        }
      }
    }
    assert ids[..|ids|] == ids;
    ok := Sort(ok, IdLe);
    rejected := Sort(rejected, StrLe);
  }

  lemma {:induction false} CompliantMember(norm: Normalizer, ctx: Request, models: Models, ids: seq<string>, m: Model)
    requires Keyed(models)
    ensures m in Compliant(norm, ctx, models, ids)
        <==> m.id in ids && Complies(norm, ctx, models, m.id) && models[m.id] == m
  {
    if ids != [] {
      CompliantMember(norm, ctx, models, ids[1..], m);
    }
  }

  /** A candidate is exactly an allowed catalog model that meets the scenario. */
  lemma CandidateMember(norm: Normalizer, ctx: Request, models: Models, m: Model)
    requires Keyed(models)
    ensures m in Candidates(norm, ctx, models)
        <==> m.id in ctx.allowedModels && Complies(norm, ctx, models, m.id) && models[m.id] == m
  {
    CompliantMember(norm, ctx, models, ctx.allowedModels, m);
    PermFacts(Candidates(norm, ctx, models), Compliant(norm, ctx, models, ctx.allowedModels));
  }

  lemma {:induction false} RefusedMember(norm: Normalizer, ctx: Request, models: Models, ids: seq<string>, id: string)
    ensures id in Refused(norm, ctx, models, ids) <==> id in ids && id in models && !Complies(norm, ctx, models, id)
  {
    if ids != [] {
      RefusedMember(norm, ctx, models, ids[1..], id);
    }
  }

  /** A rejected ID is exactly an allowed one whose catalog model the scenario rules out; unknown IDs are not reported. */
  lemma RejectedMember(norm: Normalizer, ctx: Request, models: Models, id: string)
    ensures id in RejectedIDs(norm, ctx, models)
        <==> id in ctx.allowedModels && id in models && Violates(norm, models[id], ctx.scenario, ctx.sensitive)
  {
    RefusedMember(norm, ctx, models, ctx.allowedModels, id);
    PermFacts(RejectedIDs(norm, ctx, models), Refused(norm, ctx, models, ctx.allowedModels));
  }

  lemma CompliantPerm(norm: Normalizer, ctx: Request, models: Models, s: seq<string>, t: seq<string>)
    requires multiset(s) == multiset(t)
    ensures multiset(Compliant(norm, ctx, models, s)) == multiset(Compliant(norm, ctx, models, t))
    ensures multiset(Refused(norm, ctx, models, s)) == multiset(Refused(norm, ctx, models, t))
  {
    var f := ids => multiset(Compliant(norm, ctx, models, ids));
    var g := ids => multiset(Refused(norm, ctx, models, ids));
    forall a, b ensures f(a + b) == f(a) + f(b) && g(a + b) == g(a) + g(b) {
      CompliantConcat(norm, ctx, models, a, b);
    }
    AdditivePerm(s, t, f);
    AdditivePerm(s, t, g);
  }

  /** The order in which a workload lists its allowed models never matters. */
  lemma CandidatesOrderIndependent(norm: Normalizer, ctx: Request, ctx': Request, models: Models)
    requires Keyed(models) && multiset(ctx.allowedModels) == multiset(ctx'.allowedModels)
    requires ctx' == ctx.(allowedModels := ctx'.allowedModels)
    ensures Candidates(norm, ctx', models) == Candidates(norm, ctx, models)
    ensures RejectedIDs(norm, ctx', models) == RejectedIDs(norm, ctx, models)
  {
    CompliantSame(norm, ctx, ctx', models, ctx'.allowedModels);
    CompliantPerm(norm, ctx, models, ctx.allowedModels, ctx'.allowedModels);
    StringOrders();
    var a, b := Candidates(norm, ctx, models), Candidates(norm, ctx', models);
    SortSorted(Compliant(norm, ctx, models, ctx.allowedModels), IdLe);
    SortSorted(Compliant(norm, ctx', models, ctx'.allowedModels), IdLe);
    forall x, y | x in a && y in a && IdLe(x, y) && IdLe(y, x) ensures x == y {
      StrLeTotal(x.id, y.id);
      CandidateMember(norm, ctx, models, x);
      CandidateMember(norm, ctx, models, y);
    }
    SortedUnique(a, b, IdLe);
    SortSorted(Refused(norm, ctx, models, ctx.allowedModels), StrLe);
    SortSorted(Refused(norm, ctx', models, ctx'.allowedModels), StrLe);
    forall x, y | StrLe(x, y) && StrLe(y, x) ensures x == y { StrLeTotal(x, y); }
    SortedUnique(RejectedIDs(norm, ctx, models), RejectedIDs(norm, ctx', models), StrLe);
  }

  lemma {:induction false} CompliantSame(norm: Normalizer, ctx: Request, ctx': Request, models: Models, ids: seq<string>)
    requires ctx'.scenario == ctx.scenario && ctx'.sensitive == ctx.sensitive
    ensures Compliant(norm, ctx', models, ids) == Compliant(norm, ctx, models, ids)
    ensures Refused(norm, ctx', models, ids) == Refused(norm, ctx, models, ids)
  {
    if ids != [] {
      CompliantSame(norm, ctx, ctx', models, ids[1..]);
    }
  }

  // ---------- first minimum ----------

  /** The element a left-to-right "strictly better" scan ends with. */
  function FirstMin(s: seq<Model>, key: Model -> real): Model
    requires s != []
  {
    if |s| == 1 then s[0]
    else
      var b := FirstMin(s[..|s| - 1], key);
      if key(s[|s| - 1]) < key(b) then s[|s| - 1] else b
  }

  lemma FirstMinSnoc(s: seq<Model>, x: Model, key: Model -> real)
    ensures FirstMin(s + [x], key)
         == if s == [] || key(x) < key(FirstMin(s, key)) then x else FirstMin(s, key)
  {
    assert s != [] ==> (s + [x])[..|s|] == s;
  }

  /** It is the earliest of the elements with the smallest key. */
  lemma {:induction false} FirstMinIs(s: seq<Model>, key: Model -> real) returns (i: nat)
    requires s != []
    ensures i < |s| && FirstMin(s, key) == s[i]
    ensures forall j | 0 <= j < |s| :: key(s[i]) <= key(s[j]) && (j < i ==> key(s[i]) < key(s[j]))
  {
    if |s| == 1 {
      i := 0;
    } else {
      var k := FirstMinIs(s[..|s| - 1], key);
      i := if key(s[|s| - 1]) < key(s[k]) then |s| - 1 else k;
    }
  }

  lemma {:induction false} FirstMinCong(s: seq<Model>, key: Model -> real, key': Model -> real)
    requires s != [] && forall m | m in s :: key(m) == key'(m)
    ensures FirstMin(s, key) == FirstMin(s, key')
  {
    if |s| > 1 {
      FirstMinCong(s[..|s| - 1], key, key');
      var i := FirstMinIs(s[..|s| - 1], key);
    }
  }

  /** In an ID-sorted pool it is the minimiser with the smallest ID. */
  lemma FirstMinSmallestID(s: seq<Model>, key: Model -> real)
    requires s != [] && SortedBy(s, IdLe)
    ensures FirstMin(s, key) in s
    ensures forall m | m in s :: key(FirstMin(s, key)) <= key(m)
    ensures forall m | m in s && key(m) == key(FirstMin(s, key)) :: StrLe(FirstMin(s, key).id, m.id)
  {
    var i := FirstMinIs(s, key);
    forall m | m in s ensures key(s[i]) <= key(m) && (key(m) == key(s[i]) ==> StrLe(s[i].id, m.id)) {
      var j :| 0 <= j < |s| && s[j] == m;
      if key(m) == key(s[i]) {
        StrLeTotal(m.id, m.id);
        assert i < j ==> IdLe(s[i], s[j]);
      }
    }
  }

  /** The scan itself. */
  method Scan(s: seq<Model>, key: Model -> real) returns (best: Model)
    requires s != []
    ensures best == FirstMin(s, key)
  {
    best := s[0];
    for i := 1 to |s|
      invariant best == FirstMin(s[..i], key)
    {
      assert s[..i + 1][..i] == s[..i];
      if key(s[i]) < key(best) {
        best := s[i];
      }
    }
    assert s[..|s|] == s;
  }
}
