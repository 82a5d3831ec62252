/** What a tenant's budget is charged for a call, that it is never overdrawn, and the limits of both. */
module LedgerSafety {
  import opened Ledger
  import opened LedgerProperties
  import opened MapSums
  import Router
  import opened Sorting
  import opened Wrappers

  // ---------- what a call is charged ----------

  /** The part of the budget a call takes in the window now: its hold and guard, its cost settled there, its debt. */
  function Charge(r: Reservation, now: Option<Window>): int {
    EntryIn(Held, now, r) + EntryIn(SettledHere, now, r) + EntryIn(Debt, now, r)
  }

  /**
   In full: the guard holds a cost settled in an earlier window until finality, and no other. Otherwise only that the
   costs reported stay within the reservation, and the hold and guard together take nothing back.
   */
  predicate Fair(full: bool, r: Reservation, now: Option<Window>) {
    && Sound(r, now)
    && (r.phase == LateSettledProvisional ==> r.carried)
    && (full && r.version > 0 && !r.final && !r.carried ==> r.guard == if r.enforcement == now then 0 else r.cost)
    && (!full ==>
          && r.hold + r.guard >= 0
          && (r.version > 0 && !r.final && !r.carried ==> r.cost <= r.amount && (r.enforcement == now ==> r.guard == 0)))
  }

  predicate Guarded(r: Reservation, now: Option<Window>) {
    Fair(true, r, now)
  }

  function Max(x: int, y: int): int {
    if x < y then y else x
  }

  /** An open call is charged its reservation, or its cost where that is higher, in whatever window it was settled. */
  lemma OpenCharge(r: Reservation, now: Option<Window>)
    requires Guarded(r, now) && Active(r.phase)
    ensures Charge(r, now) == Max(r.amount, Basis(r)) >= r.cost
  {
  }

  lemma InStepCharge(r: Reservation, t: Tenant, r': Reservation, t': Tenant)
    requires InStep(r, t, r', t')
    ensures Available(t') - Available(t) == Charge(r, t.window) - Charge(r', t.window)
  {
    assert Balance(Held, t') - Balance(Held, t) == EntryIn(Held, t.window, r') - EntryIn(Held, t.window, r);
    assert Balance(SettledHere, t') - Balance(SettledHere, t)
        == EntryIn(SettledHere, t.window, r') - EntryIn(SettledHere, t.window, r);
    assert Balance(Debt, t') - Balance(Debt, t) == EntryIn(Debt, t.window, r') - EntryIn(Debt, t.window, r);
  }

  /** A report within the reservation, of a call that did not expire unclaimed, and no increase after finality. */
  predicate PrudentReport(r: Reservation, bill: Option<Bill>) {
    bill.Some? ==>
      r.phase != ExpiredUndispatched && bill.value.cost <= r.amount && (r.final ==> bill.value.cost <= r.cost)
  }

  predicate Prudent(rules: Rules, r: Reservation, m: Message) {
    m.action.Settling? ==> PrudentReport(r, rules.price(r.prices, m.action.usage))
  }

  lemma ReportFair(full: bool, r: Reservation, t: Tenant, event: string, a: Action, cost: int, final: bool, exceeded: bool)
    requires Fair(full, r, t.window) && !r.final && a.Settling? && cost >= 0 && a.version > 0
    requires Report(r, t, event, a, cost, final, exceeded).Changed? && (!full ==> cost <= r.amount)
    ensures Fair(full, Report(r, t, event, a, cost, final, exceeded).res, t.window)
  {
    ReportInStep(r, t, event, a, cost, final, exceeded);
  }

  /** A report within the reservation charges no more than before. */
  lemma ReportCharge(r: Reservation, t: Tenant, event: string, a: Action, cost: int, final: bool, exceeded: bool)
    requires Fair(false, r, t.window) && !r.final && a.Settling? && 0 <= cost <= r.amount && a.version > 0 && Active(r.phase)
    requires Report(r, t, event, a, cost, final, exceeded).Changed?
    ensures Charge(Report(r, t, event, a, cost, final, exceeded).res, t.window) <= Charge(r, t.window)
  {
  }

  lemma CorrectFair(full: bool, r: Reservation, t: Tenant, event: string, version: int, cost: int)
    requires Fair(full, r, t.window) && r.final && version > 0 && cost >= 0
    ensures Fair(full, CorrectFinal(r, t, event, version, cost).0, t.window)
    ensures cost <= r.cost ==> Charge(CorrectFinal(r, t, event, version, cost).0, t.window) == Charge(r, t.window)
  {
  }

  lemma SettlementFair(full: bool, r: Reservation, t: Tenant, event: string, a: Action, bill: Option<Bill>)
    requires Fair(full, r, t.window) && a.Settling? && ApplySettlement(r, t, event, a, bill).Changed?
    requires full || PrudentReport(r, bill)
    ensures Fair(full, ApplySettlement(r, t, event, a, bill).res, t.window)
    ensures !full ==> Charge(ApplySettlement(r, t, event, a, bill).res, t.window) <= Charge(r, t.window)
  {
    if r.final {
      CorrectFair(full, r, t, event, a.version, bill.value.cost);
    } else {
      var b, r0 := bill.value, r.(outbox := Delivered);
      ReportFair(full, r0, t, event, a, b.cost, a.final && !b.missing, b.exceeded);
      if !full { ReportCharge(r0, t, event, a, b.cost, a.final && !b.missing, b.exceeded); }
    }
  }

  lemma ActFair(full: bool, rules: Rules, r: Reservation, t: Tenant, m: Message)
    requires Fair(full, r, t.window) && Act(rules, r, t, m).Changed? && (full || Prudent(rules, r, m))
    ensures Fair(full, Act(rules, r, t, m).res, t.window)
    ensures !full ==> Charge(Act(rules, r, t, m).res, t.window) <= Charge(r, t.window)
  {
    if m.action.Settling? {
      SettlementFair(full, r, t, m.event, m.action, rules.price(r.prices, m.action.usage));
    } else {
      ActInStep(rules, r, t, m);
    }
  }

  // ---------- the books ----------

  ghost predicate FairAt(full: bool, s: Books, id: string)
    requires id in s.reservations
  {
    s.reservations[id].tenant in s.tenants
    && Fair(full, s.reservations[id], s.tenants[s.reservations[id].tenant].window)
  }

  ghost predicate Covered(s: Books) {
    forall id | id in s.tenants :: Available(s.tenants[id]) >= 0
  }

  /** In full, every call is charged in full; otherwise no budget is overdrawn. */
  ghost predicate Safe(full: bool, s: Books) {
    && (forall id {:trigger FairAt(full, s, id)} | id in s.reservations :: FairAt(full, s, id))
    && (full || Covered(s))
  }

  /** A rollover never lowers what is available: each guard is at most what was settled. */
  lemma RollOverSafe(full: bool, s: Books, tenant: string, next: Window)
    requires Good(s) && Safe(full, s) && tenant in s.tenants && s.tenants[tenant].window.Some?
    requires next.start > s.tenants[tenant].window.value.start
    ensures Safe(full, RollOver(s, tenant, next))
    ensures Available(RollOver(s, tenant, next).tenants[tenant]) >= Available(s.tenants[tenant])
  {
    var s', w := RollOver(s, tenant, next), s.tenants[tenant].window;
    forall id | id in s'.reservations ensures FairAt(full, s', id) {
      assert FairAt(full, s, id);
      if s.reservations[id].tenant == tenant { RolledSound(s.reservations[id], tenant, w, next); }
    }
    forall id | id in s.reservations
      ensures GuardOf(tenant, w)(s.reservations[id]) <= Entry(SettledHere, tenant, w)(s.reservations[id])
    {
      assert FairAt(full, s, id);
    }
    SumLe(s.reservations, GuardOf(tenant, w), Entry(SettledHere, tenant, w));
    assert Drift(s, SettledHere, tenant) == 0;
  }

  lemma AdvanceSafe(full: bool, s: Books, tenant: string, clock: Clock)
    requires Good(s) && Safe(full, s) && Advance(s, tenant, clock).Some?
    ensures Safe(full, Advance(s, tenant, clock).value)
  {
    if Advance(s, tenant, clock).value != s {
      RollOverSafe(full, s, tenant, clock(s.tenants[tenant].period).value);
    }
  }

  /** One reservation and its tenant, changed in step to no higher a charge. */
  lemma PutSafe(full: bool, s: Books, s': Books, id: string, t': Tenant)
    requires Safe(full, s) && id in s.reservations && id in s'.reservations
    requires s'.reservations == s.reservations[id := s'.reservations[id]]
    requires s'.reservations[id].tenant == s.reservations[id].tenant && s.reservations[id].tenant in s.tenants
    requires s'.tenants == s.tenants[s.reservations[id].tenant := t']
    requires Fair(full, s'.reservations[id], t'.window) && t'.window == s.tenants[s.reservations[id].tenant].window
    requires full || Available(t') >= Available(s.tenants[s.reservations[id].tenant])
    ensures Safe(full, s')
  {
    forall i | i in s'.reservations ensures FairAt(full, s', i) {
      if i != id { assert FairAt(full, s, i); }
    }
  }

  /** The step of a message that is acted on; base may be without a guard lost. */
  lemma ChangeSafe(full: bool, rules: Rules, s: Books, m: Message, base: Reservation, c: Change)
    requires Safe(full, s) && m.request in s.reservations && base.tenant == s.reservations[m.request].tenant
    requires base.tenant in s.tenants
    requires c == Act(rules, base, s.tenants[base.tenant], m) && c.Changed?
    requires Fair(full, base, s.tenants[base.tenant].window) && (full || Prudent(rules, base, m))
    ensures Safe(full, Store(s, m, c.res, c.tenant))
  {
    var t := s.tenants[base.tenant];
    ActFair(full, rules, base, t, m);
    ActInStep(rules, base, t, m);
    InStepCharge(base, t, c.res, c.tenant);
    var s2 := Store(s, m, c.res, c.tenant);
    PutSafe(full, s, s2, m.request, s2.tenants[base.tenant]);
  }

  /** What a message acts on is fair, even when the guard of its own rollover is lost. */
  lemma BaseFair(full: bool, rules: Rules, s: Books, m: Message, s1: Books, base: Reservation, lost: int)
    requires Safe(full, s1) && m.request in s1.reservations && base.tenant in s1.tenants
    requires s1.reservations[m.request] == base.(guard := base.guard + lost)
    requires m.request in s.reservations && FairAt(full, s, m.request) && Sound(base, s1.tenants[base.tenant].window)
    requires lost != 0 ==> !full && base == s.reservations[m.request] && base.enforcement != s1.tenants[base.tenant].window
    ensures Fair(full, base, s1.tenants[base.tenant].window)
  {
    assert FairAt(full, s1, m.request);
  }

  lemma HandleSafe(full: bool, rules: Rules, s: Books, m: Message, clock: Clock, reread: bool)
    requires Good(s) && Safe(full, s)
    requires if full then Lost(rules, s, m, clock, reread) == 0
             else m.request in s.reservations ==> Prudent(rules, s.reservations[m.request], m)
    ensures Safe(full, Handle(rules, s, m, clock, reread).0)
  {
    var s', accepted := Handle(rules, s, m, clock, reread).0, Handle(rules, s, m, clock, reread).1.Accepted?;
    if accepted {
      var s1, base, c := AcceptedParts(rules, s, m, clock, reread);
      AdvanceSafe(full, s, base.tenant, clock);
      assert FairAt(full, s, m.request);
      BaseFair(full, rules, s, m, s1, base, Lost(rules, s, m, clock, reread));
      ChangeSafe(full, rules, s1, m, base, c);
    } else {
      UnacceptedParts(rules, s, m, clock, reread);
      if s' != s { AdvanceSafe(full, s, OwnerOf(s, m), clock); }
    }
  }

  /** A tenant whose window may begin and whose budget still covers it. */
  lemma RetenantSafe(full: bool, s: Books, s': Books, tenant: string, t': Tenant)
    requires Safe(full, s) && s'.reservations == s.reservations && s'.tenants == s.tenants[tenant := t']
    requires full || Available(t') >= 0
    requires t'.window == TenantOf(s, tenant).window || TenantOf(s, tenant).window.None?
    ensures Safe(full, s')
  {
    forall id | id in s'.reservations ensures FairAt(full, s', id) {
      assert FairAt(full, s, id);
    }
  }

  lemma BindSafe(full: bool, s: Books, tenant: string, p: Policy, w: Window)
    requires Good(s) && Safe(full, s) && Bind(s, tenant, p, w).Some? && p.budget >= 0
    requires !full && TenantOf(s, tenant).window.Some? ==> p.budget >= TenantOf(s, tenant).budget
    ensures Safe(full, Bind(s, tenant, p, w).value)
  {
    var t := TenantOf(s, tenant);
    var s0 := s.(tenants := s.tenants[tenant := t]);
    RetenantSafe(full, s, s0, tenant, t);
    RetenantFollows(s, s0, tenant, t);
    FollowsGood(s, s0, tenant, 0);
    var s1 := if t.window.Some? && t.window != Some(w) then RollOver(s0, tenant, w) else s0;
    if s1 != s0 { RollOverSafe(full, s0, tenant, w); }
    var s2 := Bind(s, tenant, p, w).value;
    assert t.window.None? ==> Blank(t);
    RetenantSafe(full, s1, s2, tenant, s2.tenants[tenant]);
  }

  lemma {:induction false} FittingFits(offers: seq<Offer>, available: int, o: Offer)
    ensures o in Fitting(offers, available) <==> o in offers && o.amount <= available
  {
    if offers != [] {
      assert offers == offers[..|offers| - 1] + [offers[|offers| - 1]];
      FittingFits(offers[..|offers| - 1], available, o);
    }
  }

  /** What is admitted fits into what is available, and leaves that much less of it. */
  lemma AdmissionFits(s: Books, a: Admission)
    requires Decide(s, a).1.Granted?
    ensures var o, t := Decide(s, a).1.offer, TenantOf(s, a.caller.tenant);
      && o in a.offers && o.amount <= Available(t)
      && Available(TenantOf(Decide(s, a).0, a.caller.tenant)) == Available(t) - o.amount >= 0
  {
    FittingFits(a.offers, Available(TenantOf(s, a.caller.tenant)), Decide(s, a).1.offer);
  }

  lemma DecideSafe(full: bool, s: Books, a: Admission)
    requires Safe(full, s) && a.request !in s.reservations && a.caller.tenant in s.tenants
    requires s.tenants[a.caller.tenant].window.Some?
    ensures Safe(full, Decide(s, a).0)
  {
    if Decide(s, a).1.Granted? {
      AdmissionFits(s, a);
      var s' := Decide(s, a).0;
      forall id | id in s'.reservations ensures FairAt(full, s', id) {
        if id != a.request { assert FairAt(full, s, id); }
      }
    }
  }

  lemma AdmitSafe(full: bool, s: Books, a: Admission, clock: Clock)
    requires Good(s) && Safe(full, s)
    requires !full && TenantOf(s, a.caller.tenant).window.Some? ==> a.policy.budget >= TenantOf(s, a.caller.tenant).budget
    ensures Safe(full, Admit(s, a, clock).0)
  {
    if Admit(s, a, clock).0 != s {
      var tenant, w := a.caller.tenant, clock(a.policy.period).value;
      BindSafe(full, s, tenant, a.policy, w);
      BindFollows(s, tenant, a.policy, w);
      DecideSafe(full, Bind(s, tenant, a.policy, w).value, a);
    }
  }

  lemma ExpireSafe(full: bool, rules: Rules, s: Books, id: string, at: int)
    requires Safe(full, s)
    ensures Safe(full, Expire(rules, s, id, at))
  {
    var s' := Expire(rules, s, id, at);
    if s' != s {
      assert FairAt(full, s, id);
      var r := s.reservations[id];
      assert s.tenants == s.tenants[r.tenant := s.tenants[r.tenant]];
      PutSafe(full, s, s', id, s'.tenants[r.tenant]);
    }
  }

  lemma AdjustSafe(full: bool, s: Books, a: Adjustment, authorised: bool, clock: Clock)
    requires Good(s) && Safe(full, s) && (full || a.budget >= TenantOf(s, a.tenant).budget)
    ensures Safe(full, Adjust(s, a, authorised, clock).0)
  {
    var s' := Adjust(s, a, authorised, clock).0;
    if s' != s {
      var s1 := Advance(s, a.tenant, clock).value;
      AdvanceSafe(full, s, a.tenant, clock);
      if s' != s1 { RetenantSafe(full, s1, s', a.tenant, s'.tenants[a.tenant]); }
    }
  }

  lemma LookedSafe(full: bool, s: Books, tenant: string, clock: Clock)
    requires Good(s) && Safe(full, s)
    ensures Safe(full, Looked(s, tenant, clock))
  {
    var s1 := if Advance(s, tenant, clock).Some? then Advance(s, tenant, clock).value else s;
    if Advance(s, tenant, clock).Some? { AdvanceSafe(full, s, tenant, clock); }
    RetenantSafe(full, s1, Looked(s, tenant, clock), tenant, TenantOf(s1, tenant));
  }

  // ---------- histories ----------

  /** The calls that cannot overdraw a budget, told from the books before them. */
  predicate PrudentTick(rules: Rules, s: Books, k: Tick) {
    match k.op
    case Receiving(m) => m.request in s.reservations ==> Prudent(rules, s.reservations[m.request], m)
    case Admitting(a) =>
      var t := TenantOf(s, a.caller.tenant);
      t.window.Some? ==> a.policy.budget >= t.budget
    case Adjusting(a, _) => a.budget >= TenantOf(s, a.tenant).budget
    case _ => true
  }

  lemma NextSafe(full: bool, rules: Rules, s: Books, k: Tick, reread: bool)
    requires Good(s) && Safe(full, s)
    requires if full then forall x :: LostAt(rules, s, k, reread, x) == 0 else PrudentTick(rules, s, k)
    ensures Safe(full, Next(rules, s, k, reread))
  {
    match k.op
    case Receiving(m) =>
      assert full ==> LostAt(rules, s, k, reread, OwnerOf(s, m)) == 0;
      HandleSafe(full, rules, s, m, k.clock, reread);
    case Admitting(a) => AdmitSafe(full, s, a, k.clock);
    case Expiring(id, at) => ExpireSafe(full, rules, s, id, at);
    case Adjusting(a, authorised) => AdjustSafe(full, s, a, authorised, k.clock);
    case Looking(tenant) => LookedSafe(full, s, tenant, k.clock);
  }

  ghost predicate PrudentRun(rules: Rules, ks: seq<Tick>, reread: bool) {
    ks == [] || (PrudentRun(rules, ks[..|ks| - 1], reread)
                 && PrudentTick(rules, After(rules, ks[..|ks| - 1], reread), ks[|ks| - 1]))
  }

  /** A history of prudent calls never overdraws a budget. */
  lemma {:induction false} NeverOverdrawn(rules: Rules, ks: seq<Tick>, reread: bool)
    requires PrudentRun(rules, ks, reread)
    ensures Safe(false, After(rules, ks, reread)) && Covered(After(rules, ks, reread))
  {
    if ks != [] {
      var init, k := ks[..|ks| - 1], ks[|ks| - 1];
      NeverOverdrawn(rules, init, reread);
      RunGood(rules, init, reread);
      NextSafe(false, rules, After(rules, init, reread), k, reread);
    }
  }

  lemma LosslessPrefix(rules: Rules, ks: seq<Tick>, reread: bool, tenant: string)
    requires ks != [] && LostBy(rules, ks, reread, tenant) == 0
    ensures LostBy(rules, ks[..|ks| - 1], reread, tenant) == 0
    ensures LostAt(rules, After(rules, ks[..|ks| - 1], reread), ks[|ks| - 1], reread, tenant) == 0
  {
    AccountsKept(rules, ks[..|ks| - 1], reread, tenant);
    LostNonNegative(rules, After(rules, ks[..|ks| - 1], reread), ks[|ks| - 1], reread, tenant);
  }

  /** A history that loses no guard charges every call in full: an open one at least its reservation and its cost. */
  lemma {:induction false} ChargedInFull(rules: Rules, ks: seq<Tick>, reread: bool)
    requires forall tenant :: LostBy(rules, ks, reread, tenant) == 0
    ensures Safe(true, After(rules, ks, reread))
  {
    if ks != [] {
      var init, k := ks[..|ks| - 1], ks[|ks| - 1];
      var s := After(rules, init, reread);
      forall tenant
        ensures LostBy(rules, init, reread, tenant) == 0 && LostAt(rules, s, k, reread, tenant) == 0
      {
        LosslessPrefix(rules, ks, reread, tenant);
      }
      ChargedInFull(rules, init, reread);
      RunGood(rules, init, reread);
      NextSafe(true, rules, s, k, reread);
    }
  }

  function ChargeTo(tenant: string, now: Option<Window>): Reservation -> int {
    (r: Reservation) => if r.tenant == tenant then Charge(r, now) else 0
  }

  lemma ChargesAdd(m: map<string, Reservation>, tenant: string, w: Option<Window>)
    ensures SumMap(m, ChargeTo(tenant, w))
         == SumMap(m, Entry(Held, tenant, w)) + SumMap(m, Entry(SettledHere, tenant, w)) + SumMap(m, Entry(Debt, tenant, w))
  {
    var both := (r: Reservation) => Entry(Held, tenant, w)(r) + Entry(SettledHere, tenant, w)(r);
    SumDiffer(m, m, Entry(Held, tenant, w), Entry(SettledHere, tenant, w), both);
    SumDiffer(m, m, both, Entry(Debt, tenant, w), ChargeTo(tenant, w));
  }

  lemma BalanceIs(s: Books, a: Account, tenant: string)
    requires Drift(s, a, tenant) == 0
    ensures Balance(a, TenantOf(s, tenant))
         == SumMap(s.reservations, Entry(a, tenant, TenantOf(s, tenant).window))
            - if a == Debt then SumMap(s.adjustments, Payment(tenant)) else 0
  {
  }

  /** With its totals exact, what is available to a tenant is its budget less the charges, and more the debt paid. */
  lemma AvailableIs(s: Books, tenant: string)
    requires Drift(s, Held, tenant) == Drift(s, SettledHere, tenant) == Drift(s, Debt, tenant) == 0
    ensures var t := TenantOf(s, tenant);
      Available(t) == t.budget - SumMap(s.reservations, ChargeTo(tenant, t.window)) + SumMap(s.adjustments, Payment(tenant))
  {
    BalanceIs(s, Held, tenant);
    BalanceIs(s, SettledHere, tenant);
    BalanceIs(s, Debt, tenant);
    ChargesAdd(s.reservations, tenant, TenantOf(s, tenant).window);
  }
}
