/** Which messages the reservation ledger takes, what a call is charged once it is final, and what it admits. */
module LedgerCharges {
  import opened Ledger
  import opened LedgerLimits
  import opened LedgerProperties
  import opened LedgerSafety
  import opened MapSums
  import Router
  import opened Wrappers

  // ---------- what is taken ----------

  /** A claim of a pending reservation, and the outcome of a claimed one. */
  lemma DispatchTaken(rules: Rules, r: Reservation, t: Tenant, m: Message)
    requires m.action.Dispatching?
    ensures var c, status := Act(rules, r, t, m), m.action.status;
      && (c.Changed? <==> if status == Claim then r.phase == Reserved && r.outbox == Pending
                          else status != FailUnbilled && r.phase == DispatchPending && r.outbox == Claimed)
      && !c.Repeated?
      && (c.Changed? ==> c.tenant == t
                         && c.res == r.(phase := if status == Claim then DispatchPending
                                                 else if status == Deliver then Dispatched else Unresolved,
                                        outbox := if status == Claim then Claimed
                                                  else if status == Deliver then Delivered else r.outbox)
                         && c.code == if status == Claim then DispatchClaimed
                                      else if status == Deliver then DispatchDelivered else DispatchUnresolved)
  {
  }

  /** The version a report brings and the report it follows on. */
  predicate NextInChain(r: Reservation, a: Action)
    requires a.Settling?
  {
    a.version == r.version + 1 && a.predecessor == if r.version == 0 then "" else r.lastUsage
  }

  predicate SameReport(r: Reservation, a: Action, bill: Bill)
    requires a.Settling?
  {
    r.version > 0 && !r.final && a.version == r.version && bill.cost == r.cost
  }

  /** A bill of a claimed call, at the price the caller claims. */
  predicate Billable(r: Reservation, a: Action, bill: Bill)
    requires a.Settling?
  {
    && bill.cost >= 0 && a.claimed in {0, bill.cost}
    && r.phase !in {Reserved, CanceledUnbilled, FailedUnbilled} && r.outbox != Pending
  }

  /**
   Reports form a chain: taken is exactly the next version that names the report before it, or the finality of the
   last one under its name. The last report again changes nothing; everything else is refused.
   */
  lemma SettlementTaken(rules: Rules, r: Reservation, t: Tenant, m: Message)
    requires Sound(r, t.window) && m.action.Settling?
    ensures var c, a, bill := Act(rules, r, t, m), m.action, rules.price(r.prices, m.action.usage);
      && (c.Changed? <==>
            && bill.Some? && Billable(r, a, bill.value)
            && (|| NextInChain(r, a)
                || (SameReport(r, a, bill.value) && a.final && !bill.value.missing && a.predecessor == r.lastUsage)))
      && (c.Repeated? <==> bill.Some? && Billable(r, a, bill.value) && SameReport(r, a, bill.value)
                           && !(a.final && !bill.value.missing))
  {
  }

  /** A pending call can be cancelled; a claimed one only where the provider vouches that nothing was billed. */
  lemma CancelTaken(rules: Rules, r: Reservation, t: Tenant, m: Message)
    requires m.action.Canceling?
    ensures var c := Act(rules, r, t, m);
      && (c.Changed? <==> (r.phase == Reserved && r.outbox == Pending) || r.phase in {DispatchPending, Dispatched, Unresolved})
      && (c.Repeated? <==> r.phase in {CanceledUnbilled, FailedUnbilled})
      && (c.Changed? && (r.phase == Reserved || m.action.authoritative) ==>
            !Active(c.res.phase) && c.res.hold == c.res.guard == 0
            && Available(c.tenant) == Available(t) + r.hold + r.guard)
      && (c.Changed? && r.phase != Reserved && !m.action.authoritative ==>
            c.res == r.(phase := Unresolved) && c.tenant == t)
  {
  }

  /** Taken are only messages of the reservation's own caller, for its attempt and, in a dispatch, for its route. */
  lemma AcceptedOnly(rules: Rules, s: Books, m: Message, clock: Clock, reread: bool)
    requires Handle(rules, s, m, clock, reread).1.Accepted?
    ensures m.request in s.reservations && m.event !in s.inbox && m.event != ""
    ensures var r := s.reservations[m.request];
      && m.owner == m.caller == Principal(r.tenant, r.workload) && m.attempt == r.attempt
      && (m.action.Dispatching? ==> m.action.route == r.route)
  {
  }

  // ---------- what a report books ----------

  /**
   The first report books its cost as debt exactly when nobody knew whether the call had been sent, or when the window
   it was admitted in is over; otherwise as settled in that window.
   */
  lemma FirstReportBooked(rules: Rules, r: Reservation, t: Tenant, m: Message)
    requires Sound(r, t.window) && m.action.Settling? && r.version == 0 && Act(rules, r, t, m).Changed?
    ensures var c, bill := Act(rules, r, t, m).res, rules.price(r.prices, m.action.usage).value;
      && c.version == 1 && c.cost == c.base == bill.cost && (c.final <==> m.action.final && !bill.missing)
      && (c.carried <==> r.phase == Unresolved || t.window != r.origin)
      && (if c.carried then c.carry == bill.cost && c.settled == 0
          else c.settled == bill.cost && c.carry == 0 && c.enforcement == c.origin == t.window)
  {
  }

  /**
   A correction before finality: debt rises to a higher cost and does not fall; a cost settled in this window follows
   the correction, one settled in an earlier window stays.
   */
  lemma CorrectionBooked(rules: Rules, r: Reservation, t: Tenant, m: Message)
    requires Sound(r, t.window) && m.action.Settling? && r.version > 0 && !r.final && Act(rules, r, t, m).Changed?
    ensures var c, bill := Act(rules, r, t, m).res, rules.price(r.prices, m.action.usage).value;
      && c.version == m.action.version && c.cost == bill.cost && c.base == r.base && c.carried == r.carried
      && (c.final <==> m.action.final && !bill.missing)
      && (if r.carried then c.carry == Max(r.carry, bill.cost)
          else c.carry == 0 && c.settled == if r.enforcement == t.window then bill.cost else r.settled)
      && (c.version == r.version ==> c.settled == r.settled && c.carry == r.carry && c.credit == r.credit)
  {
  }

  /**
   A correction after finality moves nothing but debt and audit credit: the debt of a cost above the last and the
   first one is all of it for a late call and the excess over the first for another; otherwise it stays.
   */
  lemma CorrectionAfterFinality(rules: Rules, r: Reservation, t: Tenant, m: Message)
    requires Sound(r, t.window) && m.action.Settling? && r.final && Act(rules, r, t, m).Changed?
    ensures var c, cost := Act(rules, r, t, m), rules.price(r.prices, m.action.usage).value.cost;
      && c.res.cost == cost && c.res.version == r.version + 1 && c.res.lastUsage == m.event
      && c.res == r.(cost := cost, version := c.res.version, lastUsage := m.event, carry := c.res.carry,
                     credit := c.res.credit)
      && c.tenant == t.(carried := t.carried + c.res.carry - r.carry, credit := t.credit + c.res.credit - r.credit)
      && (cost <= r.cost || cost <= r.base ==> c.res.carry == r.carry)
      && (cost > r.cost && cost > r.base ==> c.res.carry == if r.carried then cost else cost - r.base)
  {
  }

  /**
   Where a report leaves the call and what is answered: a cost above the reservation, or a component above its bound,
   is always said; otherwise finality, debt, a correction or a first settlement.
   */
  lemma ReportAnswered(rules: Rules, r: Reservation, t: Tenant, m: Message)
    requires Sound(r, t.window) && m.action.Settling? && Act(rules, r, t, m).Changed? && !r.final
    ensures var c, bill := Act(rules, r, t, m), rules.price(r.prices, m.action.usage).value;
      var exceeds := bill.cost > r.amount || bill.exceeded;
      && (c.code == ReservationExceeded <==> exceeds)
      && (c.res.final ==> c.res.phase == (if c.res.carried then LateFinalized else Finalized)
                          && (!exceeds ==> c.code == if c.res.carried then LateSettlement else SettlementFinal))
      && (!c.res.final ==> (c.res.phase == CorrectedProvisional <==> exceeds || c.res.version > 1)
                           && (!exceeds ==> (c.code == Correction <==> c.res.version > 1)))
      && (!c.res.final && !exceeds && c.res.version == 1 ==>
            && c.res.phase == (if c.res.carried then LateSettledProvisional else SettledProvisional)
            && c.code == if c.res.carried then LateSettlement else ProvisionalSettlement)
  {
  }

  /** After finality only a raise can be above the reservation. */
  lemma CorrectionAnswered(rules: Rules, r: Reservation, t: Tenant, m: Message)
    requires m.action.Settling? && Act(rules, r, t, m).Changed? && r.final
    ensures var c, bill := Act(rules, r, t, m), rules.price(r.prices, m.action.usage).value;
      c.code == if bill.cost > r.cost && (bill.cost > r.amount || bill.exceeded) then ReservationExceeded else Correction
  {
  }

  lemma CreditAfterFinality(r: Reservation, t: Tenant, event: string, version: int, cost: int)
    ensures var (r', t') := CorrectFinal(r, t, event, version, cost);
      && r'.base == r.base && r'.credit == Max(0, r.base - cost) && t'.credit - t.credit == r'.credit - r.credit
  {
  }

  lemma CreditBefore(r: Reservation, t: Tenant, event: string, version: int, cost: int)
    requires Sound(r, t.window) && r.version > 0
    ensures var (r', t') := BookUsage(r, t, event, version, cost);
      && r'.base == r.base && t'.credit - t.credit == r'.credit - r.credit
      && r'.credit == if (if r.carried then cost != r.carry else r.enforcement != t.window)
                      then Max(0, r.base - cost) else r.credit
  {
  }

  /**
   The audit credit is what the last cost is below the first, except for costs settled in the window still open and
   for debt reported again at its height: these leave it as it was.
   */
  lemma CreditBooked(rules: Rules, r: Reservation, t: Tenant, m: Message)
    requires Sound(r, t.window) && m.action.Settling? && r.version > 0 && Act(rules, r, t, m).Changed?
    requires m.action.version > r.version
    ensures var c, cost := Act(rules, r, t, m).res, rules.price(r.prices, m.action.usage).value.cost;
      && c.base == r.base && Act(rules, r, t, m).tenant.credit - t.credit == c.credit - r.credit
      && c.credit == if r.final || (if r.carried then cost != r.carry else r.enforcement != t.window)
                     then Max(0, r.base - cost) else r.credit
  {
    if r.final {
      CreditAfterFinality(r, t, m.event, m.action.version, rules.price(r.prices, m.action.usage).value.cost);
    } else {
      CreditBefore(r.(outbox := Delivered), t, m.event, m.action.version, rules.price(r.prices, m.action.usage).value.cost);
    }
  }

  // ---------- one step of the books ----------

  /** What changes without a message: a guard, or the end of the hold by expiry. */
  predicate Quiet(r: Reservation, r': Reservation) {
    r' == r.(phase := r'.phase, outbox := r'.outbox, hold := r'.hold, guard := r'.guard) && (r.final ==> r' == r)
  }

  lemma AdvanceQuiet(s: Books, tenant: string, clock: Clock, id: string)
    requires Inv(s) && Advance(s, tenant, clock).Some? && id in s.reservations
    ensures id in Advance(s, tenant, clock).value.reservations
    ensures Quiet(s.reservations[id], Advance(s, tenant, clock).value.reservations[id])
  {
    assert Kept(s, id);
  }

  lemma BindQuiet(s: Books, tenant: string, p: Policy, w: Window, id: string)
    requires Inv(s) && Bind(s, tenant, p, w).Some? && id in s.reservations
    ensures id in Bind(s, tenant, p, w).value.reservations
    ensures Quiet(s.reservations[id], Bind(s, tenant, p, w).value.reservations[id])
  {
    assert Kept(s, id);
  }

  /** A message acted on: base is the reservation but for its guard. */
  ghost predicate ActedOn(rules: Rules, s: Books, s': Books, k: Tick, id: string, base: Reservation, t: Tenant)
    requires id in s.reservations && id in s'.reservations
  {
    && k.op.Receiving? && k.op.m.request == id
    && base == s.reservations[id].(guard := base.guard) && t.window == TenantOf(s', base.tenant).window
    && Sound(base, t.window) && Act(rules, base, t, k.op.m).Changed?
    && s'.reservations[id] == Act(rules, base, t, k.op.m).res
  }

  lemma HandleStep(rules: Rules, s: Books, k: Tick, reread: bool, id: string)
    returns (acted: bool, base: Reservation, t: Tenant)
    requires Good(s) && k.op.Receiving? && id in s.reservations
    ensures id in Next(rules, s, k, reread).reservations
    ensures !acted ==> Quiet(s.reservations[id], Next(rules, s, k, reread).reservations[id])
    ensures acted ==> ActedOn(rules, s, Next(rules, s, k, reread), k, id, base, t)
  {
    var m, s' := k.op.m, Next(rules, s, k, reread);
    acted, base, t := false, s.reservations[id], NEW_TENANT;
    if Handle(rules, s, m, k.clock, reread).1.Accepted? {
      var s1, b, c := AcceptedParts(rules, s, m, k.clock, reread);
      AdvanceQuiet(s, b.tenant, k.clock, id);
      ActInStep(rules, b, s1.tenants[b.tenant], m);
      if m.request == id {
        AdvancedReservation(s, id, b.tenant, k.clock);
        acted, base, t := true, b, s1.tenants[b.tenant];
      }
    } else {
      UnacceptedParts(rules, s, m, k.clock, reread);
      if s' != s { AdvanceQuiet(s, OwnerOf(s, m), k.clock, id); }
    }
  }

  lemma AdmitQuiet(s: Books, a: Admission, clock: Clock, id: string)
    requires Inv(s) && id in s.reservations
    ensures id in Admit(s, a, clock).0.reservations
    ensures Quiet(s.reservations[id], Admit(s, a, clock).0.reservations[id])
  {
    if Admit(s, a, clock).0 != s {
      BindQuiet(s, a.caller.tenant, a.policy, clock(a.policy.period).value, id);
    }
  }

  lemma ExpireQuiet(rules: Rules, s: Books, expired: string, at: int, id: string)
    requires Inv(s) && id in s.reservations
    ensures id in Expire(rules, s, expired, at).reservations
    ensures Quiet(s.reservations[id], Expire(rules, s, expired, at).reservations[id])
  {
    assert Kept(s, id);
  }

  /** Every call of the ledger changes a reservation by a message acted on, or quietly. */
  lemma StepOf(rules: Rules, s: Books, k: Tick, reread: bool, id: string)
    returns (acted: bool, base: Reservation, t: Tenant)
    requires Good(s) && id in s.reservations
    ensures id in Next(rules, s, k, reread).reservations
    ensures !acted ==> Quiet(s.reservations[id], Next(rules, s, k, reread).reservations[id])
    ensures acted ==> ActedOn(rules, s, Next(rules, s, k, reread), k, id, base, t)
  {
    acted, base, t := false, s.reservations[id], NEW_TENANT;
    match k.op
    case Receiving(m) => acted, base, t := HandleStep(rules, s, k, reread, id);
    case Admitting(a) => AdmitQuiet(s, a, k.clock, id);
    case Expiring(expired, at) => ExpireQuiet(rules, s, expired, at, id);
    case Adjusting(a, authorised) => if Advance(s, a.tenant, k.clock).Some? { AdvanceQuiet(s, a.tenant, k.clock, id); }
    case Looking(tenant) => if Advance(s, tenant, k.clock).Some? { AdvanceQuiet(s, tenant, k.clock, id); }
  }

  // ---------- what a call keeps ----------

  /** What admission froze stays; the first report fixes the base and whether the call is debt; finality is for good. */
  predicate Since(r: Reservation, r': Reservation) {
    && r' == r'.(tenant := r.tenant, workload := r.workload, fingerprint := r.fingerprint, attempt := r.attempt,
                 route := r.route, prices := r.prices, amount := r.amount, origin := r.origin, expiry := r.expiry)
    && r.version <= r'.version
    && (r.version > 0 ==> r'.base == r.base && r'.carried == r.carried && r'.enforcement == r.enforcement)
    && (r.version == r'.version ==>
          r'.cost == r.cost && r'.settled == r.settled && r'.carry == r.carry && r'.carried == r.carried)
    && (r.final ==> r'.final && r'.settled == r.settled && (r.version == r'.version ==> r' == r))
  }

  lemma SettlementSince(rules: Rules, r: Reservation, t: Tenant, m: Message)
    requires Sound(r, t.window) && m.action.Settling? && Act(rules, r, t, m).Changed? && !r.final
    ensures Since(r, Act(rules, r, t, m).res)
  {
    if r.version == 0 { FirstReportBooked(rules, r, t, m); } else { CorrectionBooked(rules, r, t, m); }
    SettlementTaken(rules, r, t, m);
  }

  lemma FinalSince(rules: Rules, r: Reservation, t: Tenant, m: Message)
    requires Sound(r, t.window) && m.action.Settling? && Act(rules, r, t, m).Changed? && r.final
    ensures Since(r, Act(rules, r, t, m).res)
  {
  }

  lemma ActSince(rules: Rules, r: Reservation, t: Tenant, m: Message)
    requires Sound(r, t.window) && Act(rules, r, t, m).Changed?
    ensures Since(r, Act(rules, r, t, m).res)
  {
    if m.action.Settling? {
      if r.final { FinalSince(rules, r, t, m); } else { SettlementSince(rules, r, t, m); }
    }
  }

  lemma {:induction false} KeptSince(rules: Rules, ks: seq<Tick>, reread: bool, id: string, i: nat, j: nat)
    requires i <= j <= |ks| && id in After(rules, ks[..i], reread).reservations
    ensures id in After(rules, ks[..j], reread).reservations
    ensures Since(After(rules, ks[..i], reread).reservations[id], After(rules, ks[..j], reread).reservations[id])
  {
    if i < j {
      KeptSince(rules, ks, reread, id, i, j - 1);
      assert ks[..j][..j - 1] == ks[..j - 1];
      var acted, base, t := LastStep(rules, ks[..j], reread, id);
    }
  }

  lemma StepSince(rules: Rules, s: Books, k: Tick, reread: bool, id: string)
    returns (acted: bool, base: Reservation, t: Tenant)
    requires Good(s) && id in s.reservations
    ensures var s' := Next(rules, s, k, reread);
      && id in s'.reservations && Since(s.reservations[id], s'.reservations[id])
      && (!acted ==> Quiet(s.reservations[id], s'.reservations[id]))
      && (acted ==> ActedOn(rules, s, s', k, id, base, t))
  {
    acted, base, t := StepOf(rules, s, k, reread, id);
    if acted { ActSince(rules, base, t, k.op.m); }
  }

  lemma LastStep(rules: Rules, ks: seq<Tick>, reread: bool, id: string) returns (acted: bool, base: Reservation, t: Tenant)
    requires ks != [] && id in After(rules, ks[..|ks| - 1], reread).reservations
    ensures var s, s' := After(rules, ks[..|ks| - 1], reread), After(rules, ks, reread);
      && id in s'.reservations && Since(s.reservations[id], s'.reservations[id])
      && (!acted ==> Quiet(s.reservations[id], s'.reservations[id]))
      && (acted ==> ActedOn(rules, s, s', ks[|ks| - 1], id, base, t))
  {
    var s := After(rules, ks[..|ks| - 1], reread);
    RunGood(rules, ks[..|ks| - 1], reread);
    acted, base, t := StepSince(rules, s, ks[|ks| - 1], reread, id);
  }

  // ---------- what a final call is charged ----------

  function CostIn(s: Books, id: string): int {
    if id in s.reservations then s.reservations[id].cost else 0
  }

  predicate FinalIn(s: Books, id: string) {
    id in s.reservations && s.reservations[id].final
  }

  /** The highest cost of a call up to its finality. */
  ghost function HighestCost(rules: Rules, ks: seq<Tick>, reread: bool, id: string): int {
    if ks == [] then 0
    else if FinalIn(After(rules, ks[..|ks| - 1], reread), id) then HighestCost(rules, ks[..|ks| - 1], reread, id)
    else Max(HighestCost(rules, ks[..|ks| - 1], reread, id), CostIn(After(rules, ks, reread), id))
  }

  /** The last cost of a call, up to its finality, while its tenant's window was w. */
  ghost function LastCostIn(rules: Rules, ks: seq<Tick>, reread: bool, id: string, tenant: string, w: Option<Window>): int {
    if ks == [] then 0
    else if FinalIn(After(rules, ks[..|ks| - 1], reread), id) || TenantOf(After(rules, ks, reread), tenant).window != w then
      LastCostIn(rules, ks[..|ks| - 1], reread, id, tenant, w)
    else CostIn(After(rules, ks, reread), id)
  }

  predicate Unreported(s: Books, id: string) {
    id in s.reservations ==> s.reservations[id].version == 0
  }

  lemma SoundIn(rules: Rules, ks: seq<Tick>, reread: bool, id: string)
    requires id in After(rules, ks, reread).reservations
    ensures var s := After(rules, ks, reread);
      && s.reservations[id].tenant in s.tenants
      && Sound(s.reservations[id], TenantOf(s, s.reservations[id].tenant).window)
  {
    RunGood(rules, ks, reread);
    assert Kept(After(rules, ks, reread), id);
  }

  lemma {:induction false} UnreportedBefore(rules: Rules, ks: seq<Tick>, reread: bool, id: string)
    requires Unreported(After(rules, ks, reread), id)
    ensures HighestCost(rules, ks, reread, id) == 0 && CostIn(After(rules, ks, reread), id) == 0
    ensures !FinalIn(After(rules, ks, reread), id)
  {
    if id in After(rules, ks, reread).reservations { SoundIn(rules, ks, reread, id); }
    if ks != [] {
      if id in After(rules, ks[..|ks| - 1], reread).reservations {
        var acted, base, t := LastStep(rules, ks, reread, id);
      }
      UnreportedBefore(rules, ks[..|ks| - 1], reread, id);
    }
  }

  /** What is booked for a reported call that was not final before the last step. */
  ghost predicate Tracked(rules: Rules, ks: seq<Tick>, reread: bool, id: string)
    requires id in After(rules, ks, reread).reservations
  {
    var s := After(rules, ks, reread);
    var r := s.reservations[id];
    if r.carried then r.carry == HighestCost(rules, ks, reread, id) && r.settled == 0
    else r.carry == 0 && r.settled == LastCostIn(rules, ks, reread, id, r.tenant, r.origin)
  }

  lemma HandleNew(rules: Rules, s: Books, m: Message, clock: Clock, reread: bool, id: string)
    requires Inv(s) && id !in s.reservations
    ensures id !in Handle(rules, s, m, clock, reread).0.reservations
  {
    if Handle(rules, s, m, clock, reread).1.Accepted? {
      var s1, base, c := AcceptedParts(rules, s, m, clock, reread);
    } else {
      UnacceptedParts(rules, s, m, clock, reread);
    }
  }

  lemma AdmitNew(s: Books, a: Admission, clock: Clock, id: string)
    requires Inv(s) && id !in s.reservations
    ensures Unreported(Admit(s, a, clock).0, id)
  {
  }

  /** A call is new without a report. */
  lemma NewUnreported(rules: Rules, s: Books, k: Tick, reread: bool, id: string)
    requires Inv(s) && id !in s.reservations
    ensures Unreported(Next(rules, s, k, reread), id)
  {
    match k.op
    case Receiving(m) => HandleNew(rules, s, m, k.clock, reread, id);
    case Admitting(a) => AdmitNew(s, a, k.clock, id);
    case Expiring(expired, at) =>
    case Adjusting(a, authorised) =>
    case Looking(tenant) =>
  }

  /** The step that brings the first report of a call. */
  ghost predicate FirstReportIn(s: Books, s': Books, id: string) {
    && id in s.reservations && id in s'.reservations && s'.reservations[id].version == 1
    && var r, r', w := s.reservations[id], s'.reservations[id], TenantOf(s', s.reservations[id].tenant).window;
       && r'.tenant == r.tenant && r'.origin == r.origin
       && (r'.carried <==> r.phase == Unresolved || w != r.origin)
       && if r'.carried then r'.carry == r'.cost >= 0 && r'.settled == 0 else r'.carry == 0 && r'.settled == r'.cost >= 0
  }

  lemma FirstActed(rules: Rules, s: Books, s': Books, k: Tick, id: string, base: Reservation, t: Tenant)
    requires id in s.reservations && id in s'.reservations && ActedOn(rules, s, s', k, id, base, t)
    requires s.reservations[id].version == 0 && s'.reservations[id].version > 0
    ensures FirstReportIn(s, s', id)
  {
    assert k.op.m.action.Settling?;
    FirstReportBooked(rules, base, t, k.op.m);
    ActSince(rules, base, t, k.op.m);
    ActInStep(rules, base, t, k.op.m);
  }

  lemma FirstStep(rules: Rules, ks: seq<Tick>, reread: bool, id: string)
    requires ks != [] && Unreported(After(rules, ks[..|ks| - 1], reread), id)
    requires !Unreported(After(rules, ks, reread), id)
    ensures FirstReportIn(After(rules, ks[..|ks| - 1], reread), After(rules, ks, reread), id)
  {
    var init, k := ks[..|ks| - 1], ks[|ks| - 1];
    var s := After(rules, init, reread);
    RunGood(rules, init, reread);
    if id !in s.reservations {
      NewUnreported(rules, s, k, reread, id);
    } else {
      UnreportedBefore(rules, init, reread, id);
      SoundIn(rules, ks, reread, id);
      var acted, base, t := LastStep(rules, ks, reread, id);
      FirstActed(rules, s, After(rules, ks, reread), k, id, base, t);
    }
  }

  /** A step of a call that has been reported and is not final. */
  ghost predicate NextIn(s: Books, s': Books, id: string) {
    && id in s.reservations && id in s'.reservations && s'.reservations[id].version > 0
    && var r, r', w := s.reservations[id], s'.reservations[id], TenantOf(s', s.reservations[id].tenant).window;
       && r'.tenant == r.tenant && r'.origin == r.origin && r'.carried == r.carried
       && if r.carried then r'.carry == Max(r.carry, r'.cost) && r'.settled == r.settled
          else r'.carry == r.carry && r'.settled == if w == r.origin then r'.cost else r.settled
  }

  lemma NextActed(rules: Rules, s: Books, s': Books, k: Tick, id: string, base: Reservation, t: Tenant)
    requires id in s.reservations && id in s'.reservations && ActedOn(rules, s, s', k, id, base, t)
    requires s.reservations[id].version > 0 && !s.reservations[id].final
    ensures NextIn(s, s', id)
  {
    ActSince(rules, base, t, k.op.m);
    if k.op.m.action.Settling? { CorrectionBooked(rules, base, t, k.op.m); }
  }

  lemma NextQuiet(s: Books, s': Books, id: string)
    requires id in s.reservations && id in s'.reservations && Quiet(s.reservations[id], s'.reservations[id])
    requires s.reservations[id].version > 0 && !s.reservations[id].final
    requires var r' := s'.reservations[id]; Sound(r', TenantOf(s', r'.tenant).window)
    ensures NextIn(s, s', id)
  {
  }

  lemma NextStep(rules: Rules, ks: seq<Tick>, reread: bool, id: string)
    requires ks != [] && !FinalIn(After(rules, ks[..|ks| - 1], reread), id)
    requires !Unreported(After(rules, ks[..|ks| - 1], reread), id)
    ensures NextIn(After(rules, ks[..|ks| - 1], reread), After(rules, ks, reread), id)
  {
    var s, s' := After(rules, ks[..|ks| - 1], reread), After(rules, ks, reread);
    SoundIn(rules, ks[..|ks| - 1], reread, id);
    var acted, base, t := LastStep(rules, ks, reread, id);
    SoundIn(rules, ks, reread, id);
    if acted {
      NextActed(rules, s, s', ks[|ks| - 1], id, base, t);
    } else {
      NextQuiet(s, s', id);
    }
  }

  lemma CostsSnoc(rules: Rules, ks: seq<Tick>, reread: bool, id: string, tenant: string, w: Option<Window>)
    requires ks != [] && !FinalIn(After(rules, ks[..|ks| - 1], reread), id)
    ensures HighestCost(rules, ks, reread, id)
         == Max(HighestCost(rules, ks[..|ks| - 1], reread, id), CostIn(After(rules, ks, reread), id))
    ensures LastCostIn(rules, ks, reread, id, tenant, w)
         == if TenantOf(After(rules, ks, reread), tenant).window == w then CostIn(After(rules, ks, reread), id)
            else LastCostIn(rules, ks[..|ks| - 1], reread, id, tenant, w)
  {
  }

  /** Until finality debt is the highest cost reported, and what is settled the last one within the origin window. */
  lemma {:induction false} BookedUntilFinal(rules: Rules, ks: seq<Tick>, reread: bool, id: string)
    requires ks != [] && !FinalIn(After(rules, ks[..|ks| - 1], reread), id)
    requires !Unreported(After(rules, ks, reread), id)
    ensures Tracked(rules, ks, reread, id)
  {
    var init, s, s' := ks[..|ks| - 1], After(rules, ks[..|ks| - 1], reread), After(rules, ks, reread);
    var r := s'.reservations[id];
    CostsSnoc(rules, ks, reread, id, r.tenant, r.origin);
    if Unreported(s, id) {
      UnreportedBefore(rules, init, reread, id);
      FirstStep(rules, ks, reread, id);
    } else {
      assert init != [];
      NotFinalBefore(rules, init, reread, id);
      BookedUntilFinal(rules, init, reread, id);
      NextStep(rules, ks, reread, id);
    }
  }

  lemma NotFinalBefore(rules: Rules, ks: seq<Tick>, reread: bool, id: string)
    requires ks != [] && !FinalIn(After(rules, ks, reread), id)
    ensures !FinalIn(After(rules, ks[..|ks| - 1], reread), id)
  {
    if id in After(rules, ks[..|ks| - 1], reread).reservations {
      var acted, base, t := LastStep(rules, ks, reread, id);
    }
  }

  /** The call is first reported by tick first, becomes final by tick last, and is not corrected after that. */
  ghost predicate ReportedAndFinal(rules: Rules, ks: seq<Tick>, reread: bool, id: string, first: nat, last: nat) {
    && first <= last < |ks|
    && Unreported(After(rules, ks[..first], reread), id) && !Unreported(After(rules, ks[..first + 1], reread), id)
    && !FinalIn(After(rules, ks[..last], reread), id) && FinalIn(After(rules, ks[..last + 1], reread), id)
    && id in After(rules, ks, reread).reservations
    && After(rules, ks, reread).reservations[id].version == After(rules, ks[..last + 1], reread).reservations[id].version
  }

  /** The first report came when nobody knew whether the call had been sent, or in another window than its own. */
  ghost predicate ReportedLate(rules: Rules, ks: seq<Tick>, reread: bool, id: string, first: nat)
    requires first < |ks| && id in After(rules, ks[..first], reread).reservations
  {
    var r := After(rules, ks[..first], reread).reservations[id];
    r.phase == Unresolved || TenantOf(After(rules, ks[..first + 1], reread), r.tenant).window != r.origin
  }

  /** What is charged for a call in the state finality left it in. */
  lemma ClosedCharge(r: Reservation, now: Option<Window>)
    requires r.final && r.hold == r.guard == 0
    requires if r.carried then r.settled == 0 else r.carry == 0 && r.enforcement == r.origin
    ensures Charge(r, now) == if r.carried then r.carry else if now == r.origin then r.settled else 0
  {
  }

  lemma FirstReportOf(rules: Rules, ks: seq<Tick>, reread: bool, id: string, first: nat)
    requires first < |ks|
    requires Unreported(After(rules, ks[..first], reread), id) && !Unreported(After(rules, ks[..first + 1], reread), id)
    ensures FirstReportIn(After(rules, ks[..first], reread), After(rules, ks[..first + 1], reread), id)
  {
    var upTo := ks[..first + 1];
    assert upTo[..|upTo| - 1] == ks[..first];
    FirstStep(rules, upTo, reread, id);
  }

  lemma TrackedToFinal(rules: Rules, ks: seq<Tick>, reread: bool, id: string, last: nat)
    requires last < |ks| && !FinalIn(After(rules, ks[..last], reread), id)
    requires !Unreported(After(rules, ks[..last + 1], reread), id)
    ensures Tracked(rules, ks[..last + 1], reread, id)
  {
    var upTo := ks[..last + 1];
    assert upTo[..|upTo| - 1] == ks[..last];
    BookedUntilFinal(rules, upTo, reread, id);
  }

  lemma SinceFull(rules: Rules, ks: seq<Tick>, reread: bool, id: string, i: nat)
    requires i <= |ks| && id in After(rules, ks[..i], reread).reservations
    ensures id in After(rules, ks, reread).reservations
    ensures Since(After(rules, ks[..i], reread).reservations[id], After(rules, ks, reread).reservations[id])
  {
    KeptSince(rules, ks, reread, id, i, |ks|);
    assert ks[..|ks|] == ks;
  }

  lemma FinalSame(rules: Rules, ks: seq<Tick>, reread: bool, id: string, last: nat)
    requires last < |ks| && FinalIn(After(rules, ks[..last + 1], reread), id)
    requires id in After(rules, ks, reread).reservations
    requires After(rules, ks, reread).reservations[id].version == After(rules, ks[..last + 1], reread).reservations[id].version
    ensures After(rules, ks, reread).reservations[id] == After(rules, ks[..last + 1], reread).reservations[id]
  {
    SinceFull(rules, ks, reread, id, last + 1);
  }

  /** From its first report to its finality, and as long as it is not corrected after that. */
  lemma SettledWhenFinal(rules: Rules, ks: seq<Tick>, reread: bool, id: string, first: nat, last: nat)
    requires ReportedAndFinal(rules, ks, reread, id, first, last)
    ensures id in After(rules, ks[..first], reread).reservations
    ensures id in After(rules, ks[..first + 1], reread).reservations
    ensures Since(After(rules, ks[..first + 1], reread).reservations[id], After(rules, ks, reread).reservations[id])
    ensures After(rules, ks, reread).reservations[id] == After(rules, ks[..last + 1], reread).reservations[id]
    ensures FirstReportIn(After(rules, ks[..first], reread), After(rules, ks[..first + 1], reread), id)
    ensures Tracked(rules, ks[..last + 1], reread, id)
  {
    FirstReportOf(rules, ks, reread, id, first);
    FinalSame(rules, ks, reread, id, last);
    SinceFull(rules, ks, reread, id, first + 1);
    ReportedOnce(rules, ks, reread, id, first, last);
    TrackedToFinal(rules, ks, reread, id, last);
  }

  lemma ReportedOnce(rules: Rules, ks: seq<Tick>, reread: bool, id: string, first: nat, last: nat)
    requires first <= last < |ks| && !Unreported(After(rules, ks[..first + 1], reread), id)
    ensures !Unreported(After(rules, ks[..last + 1], reread), id)
  {
    SoundIn(rules, ks[..first + 1], reread, id);
    KeptSince(rules, ks, reread, id, first + 1, last + 1);
  }

  lemma ClosedSound(r: Reservation, w: Option<Window>)
    requires Sound(r, w) && r.final
    ensures r.hold == r.guard == 0 && (!r.carried ==> r.enforcement == r.origin)
  {
  }

  /**
   What a final call is charged, over every history. Reported late, its highest cost up to finality, in every window.
   Otherwise the last cost reported in the window it was admitted in, there, and nothing in any other.
   */
  lemma FinalCharge(rules: Rules, ks: seq<Tick>, reread: bool, id: string, first: nat, last: nat, now: Option<Window>)
    requires ReportedAndFinal(rules, ks, reread, id, first, last)
    ensures id in After(rules, ks[..first], reread).reservations
    ensures var r := After(rules, ks, reread).reservations[id];
      Charge(r, now) == if ReportedLate(rules, ks, reread, id, first) then HighestCost(rules, ks[..last + 1], reread, id)
                        else if now == r.origin then LastCostIn(rules, ks[..last + 1], reread, id, r.tenant, r.origin)
                        else 0
  {
    SettledWhenFinal(rules, ks, reread, id, first, last);
    var r, s := After(rules, ks, reread).reservations[id], After(rules, ks, reread);
    SoundIn(rules, ks, reread, id);
    ClosedSound(r, TenantOf(s, r.tenant).window);
    ClosedCharge(r, now);
  }

  /** A call of one report is charged its cost: late, in every window, and otherwise in the window it was admitted in. */
  lemma OneReportCharge(rules: Rules, ks: seq<Tick>, reread: bool, id: string, first: nat, last: nat, now: Option<Window>)
    requires ReportedAndFinal(rules, ks, reread, id, first, last)
    requires After(rules, ks, reread).reservations[id].version == 1
    ensures id in After(rules, ks[..first], reread).reservations
    ensures id in After(rules, ks[..first + 1], reread).reservations
    ensures var r := After(rules, ks, reread).reservations[id];
      && r.cost == After(rules, ks[..first + 1], reread).reservations[id].cost
      && Charge(r, now) == if ReportedLate(rules, ks, reread, id, first) || now == r.origin then r.cost else 0
  {
    SettledWhenFinal(rules, ks, reread, id, first, last);
    var r, s := After(rules, ks, reread).reservations[id], After(rules, ks, reread);
    SoundIn(rules, ks, reread, id);
    ClosedSound(r, TenantOf(s, r.tenant).window);
    ClosedCharge(r, now);
  }

  // ---------- windows and admission ----------

  /** A bound tenant follows the clock forward, and nothing happens when the clock is unknown or behind. */
  lemma WindowAdvances(s: Books, tenant: string, clock: Clock)
    requires tenant in s.tenants && s.tenants[tenant].window.Some? && s.tenants[tenant].period != ""
    ensures var t, next := s.tenants[tenant], clock(s.tenants[tenant].period);
      && (Advance(s, tenant, clock).Some? <==> next.Some? && Behind(t.window, next))
      && (Advance(s, tenant, clock).Some? ==>
            var t' := TenantOf(Advance(s, tenant, clock).value, tenant);
            && t'.window == next && t'.budget == t.budget && t'.carried == t.carried && t'.credit == t.credit
            && t'.settled == if next == t.window then t.settled else 0)
  {
  }

  /** A tenant is bound for the first time, again to the same policy and budget, or for a later window. */
  lemma BindTaken(s: Books, tenant: string, p: Policy, w: Window)
    ensures var t := TenantOf(s, tenant);
      Bind(s, tenant, p, w).Some? <==>
      (|| t.window.None?
       || (t.window == Some(w) && t.budget == p.budget && t.identity in {"", p.identity})
       || (t.window.Some? && w.start > t.window.value.start && t.window != Some(w)))
    ensures Bind(s, tenant, p, w).Some? ==>
              var t, t' := TenantOf(s, tenant), TenantOf(Bind(s, tenant, p, w).value, tenant);
              && t'.window == Some(w) && t'.budget == p.budget && t'.identity == p.identity && t'.period == p.period
              && t'.carried == t.carried && t'.credit == t.credit && t'.active == t.active
              && t'.settled == if t.window.None? || t.window == Some(w) then t.settled else 0
  {
  }

  ghost predicate SomeFits(s: Books, tenant: string, offers: seq<Offer>) {
    exists o | o in offers :: o.amount <= Available(TenantOf(s, tenant))
  }

  lemma SomeFitting(offers: seq<Offer>, available: int)
    ensures Fitting(offers, available) == [] <==> forall o | o in offers :: o.amount > available
  {
    forall o ensures o in Fitting(offers, available) <==> o in offers && o.amount <= available {
      FittingFits(offers, available, o);
    }
    var choices := Fitting(offers, available);
    if choices != [] { assert choices[0] in choices; }
  }

  /** Granted is exactly an enrolled request with an offer that fits, queued one whose offers are all too dear. */
  lemma DecideGrants(s: Books, a: Admission)
    ensures var (s', d), fits := Decide(s, a), SomeFits(s, a.caller.tenant, a.offers);
      && (d.Granted? <==> a.enrolled && fits) && (d.Queued? <==> a.offers != [] && !fits)
      && s' == if d.Granted? then Hold(s, a, d.offer) else s
  {
    hide Fitting, Available, Hold, Best;
    SomeFitting(a.offers, Available(TenantOf(s, a.caller.tenant)));
  }

  /** A hold makes one reservation, on the list of its tenant, and touches no other. */
  lemma HoldTouches(s: Books, a: Admission, o: Offer)
    ensures var s' := Hold(s, a, o);
      && s'.inbox == s.inbox && s'.adjustments == s.adjustments
      && s'.reservations.Keys == s.reservations.Keys + {a.request}
      && (forall id | id in s.reservations && id != a.request :: s'.reservations[id] == s.reservations[id])
      && s'.tenants.Keys == s.tenants.Keys + {a.caller.tenant}
      && (forall id | id in s.tenants && id != a.caller.tenant :: s'.tenants[id] == s.tenants[id])
      && a.request in TenantOf(s', a.caller.tenant).active
  {
    hide NewReservation;
  }

  /** The new reservation: pending, holding the offer's amount, bound to caller, offer, window and expiry. */
  lemma GrantedReservation(s: Books, a: Admission)
    requires Decide(s, a).1.Granted?
    ensures a.request in Decide(s, a).0.reservations
    ensures var r, o, w := Decide(s, a).0.reservations[a.request], Decide(s, a).1.offer, TenantOf(s, a.caller.tenant).window;
      && r.tenant == a.caller.tenant && r.workload == a.caller.workload && r.fingerprint == a.fingerprint
      && r.route == o.route && r.prices == o.prices && r.amount == o.amount == r.hold
      && r.phase == Reserved && r.outbox == Pending && r.version == 0 && r.attempt == a.request + ":attempt:1"
      && r.origin == w && r.expiry == a.expiry && !r.final && Guarded(r, w) == (Behind(w, w))
  {
  }

  /**
   The offer granted: by the quality objective none that fits is better, by latency none faster, and by cost, or among
   equals, none reserves less.
   */
  lemma GrantedIsBest(s: Books, a: Admission, x: Offer)
    requires Decide(s, a).1.Granted? && x in a.offers && x.amount <= Available(TenantOf(s, a.caller.tenant))
    ensures var o := Decide(s, a).1.offer;
      && o in a.offers
      && (a.objective == Quality ==> o.quality >= x.quality && (o.quality == x.quality ==> o.amount <= x.amount))
      && (a.objective == Latency ==> o.latency <= x.latency && (o.latency == x.latency ==> o.amount <= x.amount))
      && (a.objective == Cheapest ==> o.amount <= x.amount && (o.amount == x.amount ==> Router.StrLe(o.model, x.model)))
  {
    var choices := Fitting(a.offers, Available(TenantOf(s, a.caller.tenant)));
    FittingFits(a.offers, Available(TenantOf(s, a.caller.tenant)), x);
    BestFirst(a.objective, choices, x);
    AdmissionFits(s, a);
  }

  /** An admission is granted exactly to a new, sound and ready request whose policy binds and an offer of which fits. */
  lemma AdmitGrants(s: Books, a: Admission, clock: Clock)
    ensures var d, w := Admit(s, a, clock).1, clock(a.policy.period);
      && (d.Granted? <==>
            && a.sound && a.ready && a.enrolled && a.request !in s.reservations && a.policy.budget >= 0
            && w.Some? && Bind(s, a.caller.tenant, a.policy, w.value).Some?
            && SomeFits(Bind(s, a.caller.tenant, a.policy, w.value).value, a.caller.tenant, a.offers))
      && (d.Existing? <==>
            && a.sound && a.request in s.reservations && Active(s.reservations[a.request].phase)
            && Owns(s.reservations[a.request], a.caller) && s.reservations[a.request].fingerprint == a.fingerprint)
    ensures a.request in s.reservations ==> Admit(s, a, clock).0 == s
  {
    var w := clock(a.policy.period);
    if w.Some? && Bind(s, a.caller.tenant, a.policy, w.value).Some? {
      DecideGrants(Bind(s, a.caller.tenant, a.policy, w.value).value, a);
    }
  }

  // ---------- expiry ----------

  /** What expiry makes of a reservation that is due: a pending one is over, a claimed one may have been billed. */
  function Expired(r: Reservation): Reservation {
    if r.phase == Reserved && r.outbox == Pending then
      r.(phase := ExpiredUndispatched, outbox := Canceled, hold := 0, guard := 0)
    else if r.phase in {DispatchPending, Dispatched} then r.(phase := Unresolved)
    else r
  }

  /** One reservation of the sweep: touched exactly from its expiry on, and only once under its event. */
  lemma ExpireTouches(rules: Rules, s: Books, id: string, at: int)
    requires id in s.reservations
    ensures var r, s' := s.reservations[id], Expire(rules, s, id, at);
      && s'.reservations == s.reservations[id := if r.expiry <= at && ExpiryEvent(rules, id, r) !in s.inbox
                                                 then Expired(r) else r]
      && s'.inbox == (if Expired(r) == r || s'.reservations == s.reservations then s.inbox
                      else s.inbox[ExpiryEvent(rules, id, r) := Event(id, None)])
  {
    var r := s.reservations[id];
    assert s.reservations[id := r] == s.reservations;
    if Expired(r) != r { assert s.reservations[id := Expired(r)][id] != s.reservations[id]; }
  }

  /** What expiry releases of a hold is available again, and only that. */
  lemma ExpireFrees(rules: Rules, s: Books, id: string, at: int)
    requires id in s.reservations && s.reservations[id].tenant in s.tenants
    ensures var r, s' := s.reservations[id], Expire(rules, s, id, at);
      && id in s'.reservations
      && Available(TenantOf(s', r.tenant)) - Available(s.tenants[r.tenant])
         == r.hold + r.guard - s'.reservations[id].hold - s'.reservations[id].guard
  {
    hide ExpiryEvent, Available;
    var r, t, s' := s.reservations[id], s.tenants[s.reservations[id].tenant], Expire(rules, s, id, at);
    if s'.reservations[id].phase == ExpiredUndispatched != r.phase {
      assert TenantOf(s', r.tenant) == t.(reserved := t.reserved - (r.hold + r.guard), active := t.active - {id});
    } else {
      assert TenantOf(s', r.tenant) == t;
    }
    AvailableMoves(t, TenantOf(s', r.tenant));
  }

  lemma AvailableMoves(t: Tenant, t': Tenant)
    requires t'.budget == t.budget && t'.settled == t.settled && t'.carried == t.carried
    ensures Available(t') - Available(t) == t.reserved - t'.reserved
  {
  }

  /** The decimal rendering of an expiry has no colon. */
  ghost predicate Decimal(rules: Rules) {
    forall at :: ':' !in rules.digits(at)
  }

  lemma ColonIsLast(a: string, b: string, i: nat)
    requires ':' !in b && i < |a + ":" + b| && (a + ":" + b)[i] == ':'
    ensures i <= |a|
  {
    var u := a + ":" + b;
    assert forall k | |a| < k < |u| :: u[k] == b[k - |a| - 1];
  }

  lemma LastColon(a: string, b: string, a': string, b': string)
    requires ':' !in b && ':' !in b' && a + ":" + b == a' + ":" + b'
    ensures a == a'
  {
    var u, v := a + ":" + b, a' + ":" + b';
    ColonIsLast(a, b, |a'|);
    ColonIsLast(a', b', |a|);
    assert a == u[..|a|] && a' == v[..|a'|];
  }

  function Kind(r: Reservation): string {
    if r.phase == Reserved then "expiry:" else "expiry-unresolved:"
  }

  lemma EventTells(rules: Rules, id: string, r: Reservation, id': string, r': Reservation)
    requires Decimal(rules) && ExpiryEvent(rules, id, r) == ExpiryEvent(rules, id', r')
    ensures id == id'
  {
    var p, p' := Kind(r), Kind(r');
    assert ExpiryEvent(rules, id, r)[6] == p[6] && ExpiryEvent(rules, id', r')[6] == p'[6];
    LastColon(p + id, rules.digits(r.expiry), p' + id', rules.digits(r'.expiry));
    assert (p + id)[|p|..] == id && (p' + id')[|p|..] == id';
  }

  /** A whole sweep: whatever the order, exactly the reservations that are due have expired, and nothing else changed. */
  lemma {:induction false} SweepTouches(rules: Rules, s: Books, ids: seq<string>, at: int, id: string)
    requires Decimal(rules) && id in s.reservations && ExpiryEvent(rules, id, s.reservations[id]) !in s.inbox
    ensures id in Swept(rules, s, ids, at).reservations
    ensures var r, s' := s.reservations[id], Swept(rules, s, ids, at);
      && s'.reservations[id] == (if id in ids && r.expiry <= at then Expired(r) else r)
      && (id !in ids ==> ExpiryEvent(rules, id, r) !in s'.inbox)
  {
    if ids != [] {
      var init, x, r := ids[..|ids| - 1], ids[|ids| - 1], s.reservations[id];
      SweepTouches(rules, s, init, at, id);
      var s1 := Swept(rules, s, init, at);
      assert ids == init + [x];
      if x in s1.reservations {
        ExpireTouches(rules, s1, x, at);
        if ExpiryEvent(rules, x, s1.reservations[x]) == ExpiryEvent(rules, id, r) {
          EventTells(rules, x, s1.reservations[x], id, r);
        }
      }
    }
  }

  // ---------- adjustments ----------

  /**
   An adjustment is taken exactly when it is authorised and complete and either the one already taken under its name,
   or new, for the window its tenant is in, and pays no more than the debt.
   */
  lemma AdjustTaken(s: Books, a: Adjustment, authorised: bool, clock: Clock)
    ensures var (s', ok), s1 := Adjust(s, a, authorised, clock), Advance(s, a.tenant, clock);
      && (ok <==>
            && authorised && a.id != "" && a.approver != "" && a.reason != "" && a.budget >= 0 && a.payment >= 0
            && if a.id in s.adjustments then s.adjustments[a.id] == a
               else a.tenant in s.tenants && s1.Some? && TenantOf(s1.value, a.tenant).window == a.window
                    && a.payment <= TenantOf(s1.value, a.tenant).carried)
      && (!ok ==> s' == s || Some(s') == s1)
      && (a.id in s.adjustments ==> s' == s)
  {
  }

  /** Taken, it lowers the debt by the payment and sets the budget, and touches nothing else. */
  lemma AdjustEffect(s: Books, a: Adjustment, authorised: bool, clock: Clock)
    requires Adjust(s, a, authorised, clock).1 && a.id !in s.adjustments
    ensures a.tenant in s.tenants && Advance(s, a.tenant, clock).Some?
    ensures var s', s1 := Adjust(s, a, authorised, clock).0, Advance(s, a.tenant, clock).value;
      var t, t' := TenantOf(s1, a.tenant), TenantOf(s', a.tenant);
      && t' == t.(carried := t'.carried, budget := a.budget) && 0 <= t'.carried + a.payment == t.carried
      && Available(t') == Available(t) + a.payment + a.budget - t.budget
      && s'.reservations == s1.reservations && s'.inbox == s.inbox && s'.adjustments == s.adjustments[a.id := a]
      && s'.tenants - {a.tenant} == s1.tenants - {a.tenant}
  {
  }

  lemma AdjustmentsStay(rules: Rules, s: Books, k: Tick, reread: bool, id: string)
    requires Inv(s) && id in s.adjustments
    ensures id in Next(rules, s, k, reread).adjustments
    ensures Next(rules, s, k, reread).adjustments[id] == s.adjustments[id]
  {
    match k.op
    case Receiving(m) => HandleAdjustments(rules, s, m, k.clock, reread);
    case Admitting(a) => AdmitAdjustments(s, a, k.clock);
    case Expiring(expired, at) =>
    case Adjusting(a, authorised) => AdjustTaken(s, a, authorised, k.clock);
    case Looking(tenant) =>
  }

  lemma HandleAdjustments(rules: Rules, s: Books, m: Message, clock: Clock, reread: bool)
    requires Inv(s)
    ensures Handle(rules, s, m, clock, reread).0.adjustments == s.adjustments
  {
    if Handle(rules, s, m, clock, reread).1.Accepted? {
      var s1, base, c := AcceptedParts(rules, s, m, clock, reread);
    } else {
      UnacceptedParts(rules, s, m, clock, reread);
    }
  }

  lemma AdmitAdjustments(s: Books, a: Admission, clock: Clock)
    ensures Admit(s, a, clock).0.adjustments == s.adjustments
  {
  }

  lemma AdjustmentsLast(rules: Rules, ks: seq<Tick>, reread: bool, id: string)
    requires ks != [] && id in After(rules, ks[..|ks| - 1], reread).adjustments
    ensures id in After(rules, ks, reread).adjustments
    ensures After(rules, ks, reread).adjustments[id] == After(rules, ks[..|ks| - 1], reread).adjustments[id]
  {
    var s := After(rules, ks[..|ks| - 1], reread);
    RunGood(rules, ks[..|ks| - 1], reread);
    AdjustmentsStay(rules, s, ks[|ks| - 1], reread, id);
  }

  lemma {:induction false} AdjustmentsKept(rules: Rules, ks: seq<Tick>, reread: bool, id: string, i: nat, j: nat)
    requires i <= j <= |ks| && id in After(rules, ks[..i], reread).adjustments
    ensures id in After(rules, ks[..j], reread).adjustments
    ensures After(rules, ks[..j], reread).adjustments[id] == After(rules, ks[..i], reread).adjustments[id]
  {
    if i < j {
      AdjustmentsKept(rules, ks, reread, id, i, j - 1);
      var upTo := ks[..j];
      assert upTo[..|upTo| - 1] == ks[..j - 1];
      AdjustmentsLast(rules, upTo, reread, id);
    }
  }

  /** An adjustment that was taken is recognised ever after and changes nothing again; its name takes no other. */
  lemma AdjustedOnce(rules: Rules, ks: seq<Tick>, reread: bool, i: nat, j: nat, a: Adjustment, clock: Clock)
    requires i < j <= |ks| && ks[i].op.Adjusting? && a.id == ks[i].op.adjustment.id
    requires Adjust(After(rules, ks[..i], reread), ks[i].op.adjustment, ks[i].op.authorised, ks[i].clock).1
    ensures var s := After(rules, ks[..j], reread);
      Adjust(s, a, true, clock) == (s, a == ks[i].op.adjustment)
  {
    var s, b := After(rules, ks[..i], reread), ks[i].op.adjustment;
    AfterSnoc(rules, ks[..i], ks[i], reread);
    assert ks[..i + 1] == ks[..i] + [ks[i]];
    AdjustTaken(s, b, ks[i].op.authorised, ks[i].clock);
    if b.id !in s.adjustments { AdjustEffect(s, b, ks[i].op.authorised, ks[i].clock); }
    AdjustmentsKept(rules, ks, reread, b.id, i + 1, j);
    AdjustTaken(After(rules, ks[..j], reread), a, true, clock);
  }
}
