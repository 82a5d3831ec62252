/** Where the reservation ledger does less than it promises, and that an event takes effect once. */
module LedgerLimits {
  import opened Ledger
  import opened LedgerProperties
  import opened LedgerSafety
  import opened MapSums
  import Router
  import opened Sorting
  import opened Wrappers

  // ---------- events ----------

  /** An event that is bound stays bound, and a reservation keeps its owner. */
  ghost predicate Keeps(s: Books, s': Books) {
    && (forall e | e in s.inbox :: e in s'.inbox && s'.inbox[e] == s.inbox[e])
    && forall id | id in s.reservations ::
         id in s'.reservations && s'.reservations[id].tenant == s.reservations[id].tenant
         && s'.reservations[id].workload == s.reservations[id].workload
  }

  lemma AdvanceKeeps(s: Books, tenant: string, clock: Clock)
    requires Advance(s, tenant, clock).Some?
    ensures Keeps(s, Advance(s, tenant, clock).value) && Advance(s, tenant, clock).value.inbox == s.inbox
  {
  }

  lemma StoreKeeps(s: Books, m: Message, r: Reservation, t: Tenant)
    requires m.event !in s.inbox && m.request in s.reservations
    requires r.tenant == s.reservations[m.request].tenant && r.workload == s.reservations[m.request].workload
    ensures Keeps(s, Store(s, m, r, t)) && Bound(Store(s, m, r, t), m, r.tenant, r.workload)
  {
  }

  /** The event is bound to the message, and the call to its owner. */
  ghost predicate Bound(s: Books, m: Message, tenant: string, workload: string) {
    && m.event in s.inbox && s.inbox[m.event] == Event(m.request, Some(Payload(m)))
    && m.request in s.reservations
    && s.reservations[m.request].tenant == tenant && s.reservations[m.request].workload == workload
  }

  lemma HandleKeeps(rules: Rules, s: Books, m: Message, clock: Clock, reread: bool)
    requires Good(s)
    ensures Keeps(s, Handle(rules, s, m, clock, reread).0)
    ensures Handle(rules, s, m, clock, reread).1.Accepted? ==>
              ValidCaller(m) && Bound(Handle(rules, s, m, clock, reread).0, m, m.caller.tenant, m.caller.workload)
  {
    var s', accepted := Handle(rules, s, m, clock, reread).0, Handle(rules, s, m, clock, reread).1.Accepted?;
    if accepted {
      var s1, base, c := AcceptedParts(rules, s, m, clock, reread);
      AdvanceKeeps(s, base.tenant, clock);
      ActInStep(rules, base, s1.tenants[base.tenant], m);
      StoreKeeps(s1, m, c.res, c.tenant);
    } else {
      UnacceptedParts(rules, s, m, clock, reread);
      if s' != s { AdvanceKeeps(s, OwnerOf(s, m), clock); }
    }
  }

  lemma BindKeeps(s: Books, tenant: string, p: Policy, w: Window)
    requires Bind(s, tenant, p, w).Some?
    ensures Keeps(s, Bind(s, tenant, p, w).value)
  {
  }

  lemma DecideKeeps(s: Books, a: Admission)
    requires a.request !in s.reservations
    ensures Keeps(s, Decide(s, a).0)
  {
  }

  lemma AdmitKeeps(s: Books, a: Admission, clock: Clock)
    ensures Keeps(s, Admit(s, a, clock).0)
  {
    if Admit(s, a, clock).0 != s {
      var s1 := Bind(s, a.caller.tenant, a.policy, clock(a.policy.period).value).value;
      BindKeeps(s, a.caller.tenant, a.policy, clock(a.policy.period).value);
      DecideKeeps(s1, a);
    }
  }

  lemma ExpireKeeps(rules: Rules, s: Books, id: string, at: int)
    ensures Keeps(s, Expire(rules, s, id, at))
  {
  }

  lemma AdjustKeeps(s: Books, a: Adjustment, authorised: bool, clock: Clock)
    ensures Keeps(s, Adjust(s, a, authorised, clock).0)
  {
    if Advance(s, a.tenant, clock).Some? { AdvanceKeeps(s, a.tenant, clock); }
  }

  lemma NextKeeps(rules: Rules, s: Books, k: Tick, reread: bool)
    requires Good(s)
    ensures Keeps(s, Next(rules, s, k, reread))
  {
    match k.op
    case Receiving(m) => HandleKeeps(rules, s, m, k.clock, reread);
    case Admitting(a) => AdmitKeeps(s, a, k.clock);
    case Expiring(id, at) => ExpireKeeps(rules, s, id, at);
    case Adjusting(a, authorised) => AdjustKeeps(s, a, authorised, k.clock);
    case Looking(tenant) => if Advance(s, tenant, k.clock).Some? { AdvanceKeeps(s, tenant, k.clock); }
  }

  lemma AfterSnoc(rules: Rules, ks: seq<Tick>, k: Tick, reread: bool)
    ensures After(rules, ks + [k], reread) == Next(rules, After(rules, ks, reread), k, reread)
  {
    assert (ks + [k])[..|ks|] == ks;
  }

  lemma KeepsTrans(s: Books, s1: Books, s2: Books)
    requires Keeps(s, s1) && Keeps(s1, s2)
    ensures Keeps(s, s2)
  {
  }

  lemma {:induction false} RunKeeps(rules: Rules, ks: seq<Tick>, reread: bool, i: nat, j: nat)
    requires i <= j <= |ks|
    ensures Keeps(After(rules, ks[..i], reread), After(rules, ks[..j], reread))
  {
    if i < j {
      var s := After(rules, ks[..j - 1], reread);
      RunKeeps(rules, ks, reread, i, j - 1);
      RunGood(rules, ks[..j - 1], reread);
      NextKeeps(rules, s, ks[j - 1], reread);
      AfterSnoc(rules, ks[..j - 1], ks[j - 1], reread);
      assert ks[..j] == ks[..j - 1] + [ks[j - 1]];
      KeepsTrans(After(rules, ks[..i], reread), s, After(rules, ks[..j], reread));
    }
  }

  /** A message that took effect is recognised ever after, whatever the clock, and changes nothing again. */
  lemma EffectOnce(rules: Rules, ks: seq<Tick>, reread: bool, i: nat, j: nat, clock: Clock)
    requires i < j <= |ks| && ks[i].op.Receiving?
    requires Handle(rules, After(rules, ks[..i], reread), ks[i].op.m, ks[i].clock, reread).1.Accepted?
    ensures Handle(rules, After(rules, ks[..j], reread), ks[i].op.m, clock, reread)
         == (After(rules, ks[..j], reread), Replayed)
  {
    assert ks[..i + 1][..i] == ks[..i];
    RunGood(rules, ks[..i], reread);
    HandleKeeps(rules, After(rules, ks[..i], reread), ks[i].op.m, ks[i].clock, reread);
    RunKeeps(rules, ks, reread, i + 1, j);
  }

  // ---------- the set of open calls ----------

  ghost predicate ListedAt(s: Books, id: string)
    requires id in s.reservations
  {
    Active(s.reservations[id].phase) <==> id in TenantOf(s, s.reservations[id].tenant).active
  }

  /** A tenant lists exactly its open calls. */
  ghost predicate Listed(s: Books) {
    forall id {:trigger ListedAt(s, id)} | id in s.reservations :: ListedAt(s, id)
  }

  /** A report that reopens an expired call. */
  ghost predicate Revives(rules: Rules, s: Books, k: Tick, reread: bool) {
    && k.op.Receiving? && k.op.m.request in s.reservations
    && s.reservations[k.op.m.request].phase == ExpiredUndispatched
    && k.op.m.request in Next(rules, s, k, reread).reservations
    && Active(Next(rules, s, k, reread).reservations[k.op.m.request].phase)
  }

  lemma ActPhases(rules: Rules, r: Reservation, t: Tenant, m: Message)
    requires Sound(r, t.window) && Act(rules, r, t, m).Changed?
    ensures !Active(r.phase) && r.phase != ExpiredUndispatched ==> !Active(Act(rules, r, t, m).res.phase)
    ensures Act(rules, r, t, m).tenant.active == t.active
  {
    ActInStep(rules, r, t, m);
  }

  lemma AdvanceLists(s: Books, tenant: string, clock: Clock)
    requires Listed(s) && Advance(s, tenant, clock).Some?
    ensures Listed(Advance(s, tenant, clock).value)
  {
    var s' := Advance(s, tenant, clock).value;
    forall id | id in s'.reservations ensures ListedAt(s', id) {
      assert ListedAt(s, id);
    }
  }

  lemma StoreLists(s: Books, m: Message, r: Reservation, t: Tenant)
    requires Listed(s) && m.request in s.reservations && r.tenant == s.reservations[m.request].tenant
    requires r.tenant in s.tenants
    requires t.active == s.tenants[r.tenant].active
    ensures Listed(Store(s, m, r, t)) <==> (Active(r.phase) ==> Active(s.reservations[m.request].phase))
  {
    var s' := Store(s, m, r, t);
    assert ListedAt(s, m.request);
    forall id | id in s'.reservations && id != m.request ensures ListedAt(s', id) {
      assert ListedAt(s, id);
    }
    assert Listed(s') <==> ListedAt(s', m.request);
  }

  /** Every call of the ledger keeps the lists of open calls, except exactly the reports that reopen an expired one. */
  lemma ListedUnlessRevived(rules: Rules, s: Books, m: Message, clock: Clock, reread: bool)
    requires Good(s) && Listed(s)
    ensures Listed(Handle(rules, s, m, clock, reread).0) <==> !Revives(rules, s, Tick(Receiving(m), clock), reread)
  {
    var s', accepted := Handle(rules, s, m, clock, reread).0, Handle(rules, s, m, clock, reread).1.Accepted?;
    if accepted {
      var s1, base, c := AcceptedParts(rules, s, m, clock, reread);
      AdvanceLists(s, base.tenant, clock);
      ActPhases(rules, base, s1.tenants[base.tenant], m);
      ActInStep(rules, base, s1.tenants[base.tenant], m);
      StoreLists(s1, m, c.res, c.tenant);
      AdvancedReservation(s, m.request, base.tenant, clock);
    } else {
      UnacceptedParts(rules, s, m, clock, reread);
      if s' != s {
        AdvanceLists(s, OwnerOf(s, m), clock);
        if m.request in s.reservations { AdvancedReservation(s, m.request, OwnerOf(s, m), clock); }
      }
    }
  }

  // ---------- the life of a call ----------

  /** Where a message can move a call; a call known to be unbilled stays so. */
  function Successors(p: Phase): set<Phase> {
    match p
    case Reserved => {DispatchPending, CanceledUnbilled}
    case DispatchPending =>
      {Dispatched, Unresolved, FailedUnbilled, SettledProvisional, LateSettledProvisional, CorrectedProvisional,
       Finalized, LateFinalized}
    case Dispatched =>
      {Unresolved, FailedUnbilled, SettledProvisional, LateSettledProvisional, CorrectedProvisional, Finalized,
       LateFinalized}
    case Unresolved => {Unresolved, FailedUnbilled, LateSettledProvisional, CorrectedProvisional, LateFinalized}
    case SettledProvisional => {CorrectedProvisional, Finalized, LateFinalized}
    case LateSettledProvisional => {CorrectedProvisional, LateFinalized}
    case CorrectedProvisional => {CorrectedProvisional, Finalized, LateFinalized}
    case Finalized => {Finalized}
    case LateFinalized => {LateFinalized}
    case CanceledUnbilled => {}
    case FailedUnbilled => {}
    case ExpiredUndispatched =>
      {SettledProvisional, LateSettledProvisional, CorrectedProvisional, Finalized, LateFinalized}
  }

  lemma ReportMoves(r: Reservation, t: Tenant, event: string, a: Action, cost: int, final: bool, exceeded: bool)
    requires Guarded(r, t.window) && !r.final && a.Settling? && cost >= 0 && a.version > 0
    requires r.phase !in {Reserved, CanceledUnbilled, FailedUnbilled}
    requires Report(r, t, event, a, cost, final, exceeded).Changed?
    ensures Report(r, t, event, a, cost, final, exceeded).res.phase in Successors(r.phase)
  {
  }

  /** A message moves a call along these steps only, and exactly the calls that are over hold nothing. */
  lemma LifeOfACall(rules: Rules, r: Reservation, t: Tenant, m: Message)
    requires Guarded(r, t.window) && Act(rules, r, t, m).Changed?
    ensures Act(rules, r, t, m).res.phase in Successors(r.phase)
    ensures !Active(Act(rules, r, t, m).res.phase) ==>
              Act(rules, r, t, m).res.hold == Act(rules, r, t, m).res.guard == 0
  {
    ActInStep(rules, r, t, m);
    if m.action.Settling? && !r.final {
      var bill, a := rules.price(r.prices, m.action.usage).value, m.action;
      ReportMoves(r.(outbox := Delivered), t, m.event, a, bill.cost, a.final && !bill.missing, bill.exceeded);
    }
  }

  // ---------- an expired call ----------

  /** A first report is taken for every call that left the outbox: a claimed one, but an expired one as well. */
  lemma FirstReportTaken(r: Reservation, t: Tenant, event: string, a: Action, bill: Bill)
    requires Sound(r, t.window) && r.version == 0 && a.Settling? && a.version == 1 && a.predecessor == ""
    requires bill.cost >= 0 && a.claimed in {0, bill.cost}
    ensures ApplySettlement(r, t, event, a, Some(bill)).Changed?
       <==> r.outbox != Pending && r.phase in {DispatchPending, Dispatched, Unresolved, ExpiredUndispatched}
  {
  }

  /** Reported before finality, an expired call takes its reservation from the budget again, without an admission. */
  lemma ExpiredCallRevived(r: Reservation, t: Tenant, event: string, a: Action, bill: Bill)
    requires Guarded(r, t.window) && r.phase == ExpiredUndispatched && r.outbox == Canceled
    requires a.Settling? && a.version == 1 && a.predecessor == "" && bill.cost >= 0 && a.claimed in {0, bill.cost}
    requires !a.final || bill.missing
    ensures var c := ApplySettlement(r, t, event, a, Some(bill));
      && c.Changed? && Active(c.res.phase)
      && Available(c.tenant) == Available(t) - Max(r.amount, bill.cost)
  {
    SettlementInStep(r, t, event, a, Some(bill));
    var c := ApplySettlement(r, t, event, a, Some(bill));
    InStepCharge(r, t, c.res, c.tenant);
    ReportFair(true, r.(outbox := Delivered), t, event, a, bill.cost, a.final && !bill.missing, bill.exceeded);
    OpenCharge(c.res, t.window);
  }

  // ---------- after finality ----------

  /**
   The first increase after finality, in the call's own window, charges the new cost exactly when the cost at
   finality was the first one reported.
   */
  lemma PostFinalExact(r: Reservation, t: Tenant, event: string, version: int, cost: int)
    requires Sound(r, t.window) && r.final && !r.carried && r.enforcement == t.window
    requires r.settled == r.cost && r.carry == 0 && cost > r.cost && version > 0
    ensures var charge := Charge(CorrectFinal(r, t, event, version, cost).0, t.window);
      && (charge == cost <==> r.base == r.cost)
      && (charge > cost <==> r.base < r.cost)
  {
  }

  /** An increase of a late call is debt in full; one of a call final in an earlier window is debt above its first cost. */
  lemma PostFinalElsewhere(r: Reservation, t: Tenant, event: string, version: int, cost: int)
    requires Sound(r, t.window) && r.final && (r.carried || r.enforcement != t.window)
    requires cost > r.cost && cost > r.base && version > 0
    ensures Charge(CorrectFinal(r, t, event, version, cost).0, t.window) == if r.carried then cost else cost - r.base
  {
  }

  /** A correction after finality frees budget exactly when it raises the cost to less than what was charged before. */
  lemma PostFinalFrees(r: Reservation, t: Tenant, event: string, version: int, cost: int)
    requires Sound(r, t.window) && r.final && cost >= 0 && version > 0
    ensures Available(CorrectFinal(r, t, event, version, cost).1) > Available(t)
       <==> r.cost < cost && r.base < cost && (if r.carried then cost else cost - r.base) < r.carry
  {
    CorrectInStep(r, t, event, version, cost);
    var (r', t') := CorrectFinal(r, t, event, version, cost);
    InStepCharge(r, t, r', t');
  }

  // ---------- the ceiling ----------

  /** The hold and guard of an open call stay within its reservation unless a cost above it was carried into a new window. */
  lemma HoldCeiling(r: Reservation, now: Option<Window>)
    requires Guarded(r, now) && Active(r.phase)
    ensures r.hold + r.guard > r.amount <==> !r.carried && r.enforcement != now && r.version > 0 && r.cost > r.amount
  {
  }

  // ---------- adjustment and choice ----------

  /** After an adjustment the policy bound before admits again in its window exactly when its budget was not changed. */
  lemma AdjustmentClosesWindow(s: Books, a: Adjustment, clock: Clock, p: Policy, w: Window)
    requires a.tenant in s.tenants && a.id !in s.adjustments && Adjust(s, a, true, clock).1
    requires Advance(s, a.tenant, clock).Some?
    requires var t := TenantOf(Advance(s, a.tenant, clock).value, a.tenant);
      t.window == Some(w) && t.identity == p.identity && t.budget == p.budget
    ensures Bind(Adjust(s, a, true, clock).0, a.tenant, p, w).Some? <==> a.budget == p.budget
  {
  }

  lemma ObjectiveOrder(o: Objective)
    ensures TotalPreorder(ByObjective(o))
  {
    forall x: Offer, y: Offer ensures NoWorse(o, x, y) || NoWorse(o, y, x) {
      Router.StrLeTotal(x.model, y.model);
    }
    forall x: Offer, y: Offer, z: Offer | NoWorse(o, x, y) && NoWorse(o, y, z) ensures NoWorse(o, x, z) {
      if Router.StrLe(x.model, y.model) && Router.StrLe(y.model, z.model) {
        Router.StrLeTransitive(x.model, y.model, z.model);
      }
    }
  }

  /** No offer comes before the one chosen by the objective, the reservation and the name. */
  lemma BestFirst(o: Objective, choices: seq<Offer>, x: Offer)
    requires x in choices
    ensures NoWorse(o, Best(o, choices), x)
  {
    ObjectiveOrder(o);
    SortSorted(choices, ByObjective(o));
    var sorted := Sort(choices, ByObjective(o));
    assert x in multiset(sorted);
    var i :| 0 <= i < |sorted| && sorted[i] == x;
    assert i > 0 ==> ByObjective(o)(sorted[0], sorted[i]);
    Router.StrLeTotal(x.model, x.model);
  }

  // ---------- three histories ----------

  const RULES := Rules((prices, usage) => Some(Bill(5, false, false)), expiry => "")
  const CALLER := Principal("t", "w")
  const OFFER := Offer("m", "x", "p", 1.0, 1, 10)
  const ADMISSION := Admission("r", CALLER, "f", true, true, Policy("b", "daily", 100), [OFFER], Cheapest, true, 0)

  function Day(d: int): Clock {
    period => Some(Window(period, d))
  }

  function Sent(event: string, action: Action): Message {
    Message(event, "r", CALLER, CALLER, "r:attempt:1", action)
  }

  const CLAIM := Sent("claim", Dispatching(Claim, "x"))
  const USAGE := Sent("usage", Settling("u", 0, 1, "", false))
  const FINALITY := Sent("final", Settling("u", 0, 1, "usage", true))

  const TODAY := Some(Window("daily", 1))
  const CLAIMED := NewReservation(ADMISSION, OFFER, TODAY).(phase := DispatchPending, outbox := Claimed)
  const REPORTED := CLAIMED.(phase := SettledProvisional, outbox := Delivered, hold := 5, cost := 5, base := 5, settled := 5,
                             version := 1, lastUsage := "usage")
  const HOLDING := Tenant(100, 0, 10, 0, 0, {"r"}, "b", TODAY, "daily")

  function OneCall(r: Reservation, inbox: map<string, Event>, t: Tenant): Books {
    Books(map["r" := r], inbox, map["t" := t], map[])
  }

  const AFTER_CLAIM := map["claim" := Event("r", Some(Payload(CLAIM)))]
  const AFTER_USAGE := AFTER_CLAIM["usage" := Event("r", Some(Payload(USAGE)))]
  const ADMITTED := OneCall(NewReservation(ADMISSION, OFFER, TODAY), map[], HOLDING)
  const STARTED := OneCall(CLAIMED, AFTER_CLAIM, HOLDING)
  const BILLED := OneCall(REPORTED, AFTER_USAGE, HOLDING.(reserved := 5, settled := 5))

  lemma AdmittedOnDayOne()
    ensures Admit(NO_BOOKS, ADMISSION, Day(1)).0 == ADMITTED
  {
    var s := Bind(NO_BOOKS, "t", ADMISSION.policy, Window("daily", 1)).value;
    var choices := Fitting([OFFER], Available(s.tenants["t"]));
    FittingFits([OFFER], Available(s.tenants["t"]), OFFER);
    FittingFits([OFFER], Available(s.tenants["t"]), Best(Cheapest, choices));
    assert s.tenants["t"] == HOLDING.(reserved := 0, active := {});
    assert Decide(s, ADMISSION).0 == Hold(s, ADMISSION, OFFER);
    assert {} + {"r"} == {"r"};
    assert s.tenants["t" := HOLDING] == map["t" := HOLDING];
  }

  /** A message step, from its parts. */
  lemma HandleIs(rules: Rules, s: Books, m: Message, clock: Clock, reread: bool, s1: Books, base: Reservation, c: Change)
    requires Admissible(s, m) && Advance(s, s.reservations[m.request].tenant, clock) == Some(s1)
    requires base == if reread && m.request in s1.reservations then s1.reservations[m.request] else s.reservations[m.request]
    requires Act(rules, base, TenantOf(s1, s.reservations[m.request].tenant), m) == c && c.Changed?
    ensures Handle(rules, s, m, clock, reread) == (Store(s1, m, c.res, c.tenant), Accepted(c.code))
  {
  }

  lemma StartedOnDayOne(reread: bool)
    ensures Handle(RULES, ADMITTED, CLAIM, Day(1), reread).0 == STARTED
  {
    assert Store(ADMITTED, CLAIM, CLAIMED, HOLDING) == STARTED;
    HandleIs(RULES, ADMITTED, CLAIM, Day(1), reread, ADMITTED, ADMITTED.reservations["r"],
             Changed(CLAIMED, HOLDING, DispatchClaimed));
  }

  lemma UsageActs()
    ensures Act(RULES, CLAIMED, HOLDING, USAGE)
         == Changed(REPORTED, HOLDING.(reserved := 5, settled := 5), ProvisionalSettlement)
  {
  }

  lemma UsageArrives()
    ensures Admissible(STARTED, USAGE) && Advance(STARTED, "t", Day(1)) == Some(STARTED)
  {
  }

  lemma UsageStored()
    ensures Store(STARTED, USAGE, REPORTED, HOLDING.(reserved := 5, settled := 5)) == BILLED
  {
  }

  lemma BilledOnDayOne(reread: bool)
    ensures Handle(RULES, STARTED, USAGE, Day(1), reread).0 == BILLED
  {
    UsageArrives();
    UsageActs();
    UsageStored();
    HandleIs(RULES, STARTED, USAGE, Day(1), reread, STARTED, CLAIMED, Act(RULES, CLAIMED, HOLDING, USAGE));
  }

  const ARRIVAL := [Tick(Admitting(ADMISSION), Day(1))]
  const DISPATCH := ARRIVAL + [Tick(Receiving(CLAIM), Day(1))]
  const REPORT := DISPATCH + [Tick(Receiving(USAGE), Day(1))]
  const HISTORY := REPORT + [Tick(Receiving(FINALITY), Day(2))]

  lemma BilledAfterReport(reread: bool)
    ensures After(RULES, REPORT, reread) == BILLED
  {
    AfterSnoc(RULES, [], Tick(Admitting(ADMISSION), Day(1)), reread);
    AdmittedOnDayOne();
    assert ARRIVAL == [] + ARRIVAL;
    AfterSnoc(RULES, ARRIVAL, Tick(Receiving(CLAIM), Day(1)), reread);
    StartedOnDayOne(reread);
    AfterSnoc(RULES, DISPATCH, Tick(Receiving(USAGE), Day(1)), reread);
    BilledOnDayOne(reread);
  }

  const GUARDED := REPORTED.(guard := 5)
  const DAY_TWO := OneCall(GUARDED, AFTER_USAGE, HOLDING.(reserved := 10, settled := 0, window := Some(Window("daily", 2))))

  lemma RolledOnDayTwo()
    ensures Advance(BILLED, "t", Day(2)) == Some(DAY_TWO)
  {
    var next := RollOver(BILLED, "t", Window("daily", 2));
    SumTake(BILLED.reservations, "r", GuardOf("t", TODAY));
    assert BILLED.reservations - {"r"} == map[];
    assert next.reservations == DAY_TWO.reservations && next.tenants == DAY_TWO.tenants;
  }

  lemma FinalityActs(r: Reservation, guard: int)
    requires r == REPORTED.(guard := guard)
    ensures var c := Act(RULES, r, DAY_TWO.tenants["t"], FINALITY);
      && c.Changed? && c.res.final && c.res.hold == c.res.guard == 0 && c.res.tenant == "t" && !Active(c.res.phase)
      && c.tenant.reserved == 5 - guard
  {
  }

  lemma FinalityArrives()
    ensures Admissible(BILLED, FINALITY)
  {
  }

  lemma FinalityStored(r: Reservation, t: Tenant)
    requires r.tenant == "t" && !Active(r.phase)
    ensures var s := Store(DAY_TWO, FINALITY, r, t);
      && s.reservations.Keys == {"r"} && s.reservations["r"] == r
      && "t" in s.tenants && s.tenants["t"].reserved == t.reserved
  {
  }

  /**
   Admitted, claimed and reported on day 1 and made final on day 2, the call holds no money any more. The tenant's
   reserved total keeps the 5 of the overwritten guard, unless the reservation is read again.
   */
  lemma StaleGuardKept(reread: bool)
    ensures var s := After(RULES, HISTORY, reread);
      && s.reservations.Keys == {"r"} && s.reservations["r"].final
      && s.reservations["r"].hold == s.reservations["r"].guard == 0
      && "t" in s.tenants && s.tenants["t"].reserved == if reread then 0 else 5
  {
    BilledAfterReport(reread);
    AfterSnoc(RULES, REPORT, Tick(Receiving(FINALITY), Day(2)), reread);
    RolledOnDayTwo();
    var base := if reread then GUARDED else REPORTED;
    FinalityArrives();
    FinalityActs(base, if reread then 5 else 0);
    var c := Act(RULES, base, DAY_TWO.tenants["t"], FINALITY);
    FinalityStored(c.res, c.tenant);
    HandleIs(RULES, BILLED, FINALITY, Day(2), reread, DAY_TWO, base, c);
  }

  /** 5, corrected to 8, final, then raised to 9: the call is charged 12. */
  lemma PostFinalOvercharge()
    ensures var (r1, t1) := BookUsage(CLAIMED, HOLDING, "a", 1, 5);
      var (r2, t2) := BookUsage(r1, t1, "b", 2, 8);
      var closed := Close(r2, t2, "c", false);
      var (r3, t3) := CorrectFinal(closed.res, closed.tenant, "d", 3, 9);
      Charge(r3, TODAY) == 12 && Available(t3) == 88
  {
  }

  /** Final at 5, raised to 9, lowered to 6, raised to 7: the last correction frees 2. */
  lemma PostFinalRaiseFrees()
    ensures var (r1, t1) := BookUsage(CLAIMED, HOLDING, "a", 1, 5);
      var closed := Close(r1, t1, "b", false);
      var (r2, t2) := CorrectFinal(closed.res, closed.tenant, "c", 2, 9);
      var (r3, t3) := CorrectFinal(r2, t2, "d", 3, 6);
      var (r4, t4) := CorrectFinal(r3, t3, "e", 4, 7);
      Available(t3) == Available(t2) == 91 && Available(t4) == 93
  {
  }
}
