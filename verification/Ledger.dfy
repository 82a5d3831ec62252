/**
 The reservation ledger (operateur/internal/govar/engine.go and ledger_extensions.go): an admission holds money of a
 tenant's budget, settlements and cancellations release it, and a new budget window carries open calls over.
 Amounts are micros of the ledger's currency.
 */
module Ledger {
  import opened MapSums
  import Router
  import opened Sorting
  import opened Wrappers

  // ---------- the records ----------

  /** A budget window: its period and the day it starts. */
  datatype Window = Window(period: string, start: int)

  /** The window the clock is in, for a period; None for a period the ledger does not know. */
  type Clock = string -> Option<Window>

  datatype Phase =
    | Reserved | DispatchPending | Dispatched | Unresolved | SettledProvisional | LateSettledProvisional
    | CorrectedProvisional | Finalized | LateFinalized | CanceledUnbilled | FailedUnbilled | ExpiredUndispatched

  datatype Outbox = Pending | Claimed | Delivered | Canceled

  /**
   amount was admitted; hold and guard are what the tenant's budget still keeps for the call; cost is the last
   reported one, base the first. settled, carry and credit are what the call has put into the tenant's totals.
   */
  datatype Reservation = Reservation(
    tenant: string, workload: string, fingerprint: string, attempt: string, route: string, prices: string,
    phase: Phase, outbox: Outbox, amount: nat, hold: int, guard: int, cost: int, base: int, settled: int, version: int,
    final: bool, carried: bool, carry: int, credit: int, origin: Option<Window>, enforcement: Option<Window>,
    lastUsage: string, expiry: int)

  datatype Tenant = Tenant(budget: int, settled: int, reserved: int, carried: int, credit: int, active: set<string>,
                           identity: string, window: Option<Window>, period: string)

  const NEW_TENANT := Tenant(0, 0, 0, 0, 0, {}, "", None, "")

  function Available(t: Tenant): int {
    t.budget - t.settled - t.reserved - t.carried
  }

  predicate Active(p: Phase) {
    p !in {CanceledUnbilled, FailedUnbilled, ExpiredUndispatched, Finalized, LateFinalized}
  }

  // ---------- messages ----------

  datatype Principal = Principal(tenant: string, workload: string)

  datatype Status = Claim | Deliver | Ambiguous | FailUnbilled

  datatype Action =
    | Dispatching(status: Status, route: string)
    | Settling(usage: string, claimed: int, version: int, predecessor: string, final: bool)
    | Canceling(reason: string, authoritative: bool)

  /** owner is what the body names, caller what the trusted boundary authenticated. */
  datatype Message = Message(event: string, request: string, owner: Principal, caller: Principal, attempt: string,
                             action: Action)

  /** What the payload hash covers; different payloads have different hashes. */
  function Payload(m: Message): Message {
    m.(event := "")
  }

  datatype Event = Event(request: string, payload: Option<Message>)

  /** The cost of a usage report at the frozen prices; whether a priced basis is missing or a component's bound exceeded. */
  datatype Bill = Bill(cost: int, missing: bool, exceeded: bool)

  /** The pricing of usage and the decimal rendering of an expiry. */
  datatype Rules = Rules(price: (string, string) -> Option<Bill>, digits: int -> string)

  datatype Adjustment = Adjustment(id: string, tenant: string, window: Option<Window>, budget: int, payment: int,
                                   approver: string, reason: string)

  datatype Books = Books(reservations: map<string, Reservation>, inbox: map<string, Event>, tenants: map<string, Tenant>,
                         adjustments: map<string, Adjustment>)

  const NO_BOOKS := Books(map[], map[], map[], map[])

  function TenantOf(s: Books, id: string): Tenant {
    if id in s.tenants then s.tenants[id] else NEW_TENANT
  }

  // ---------- one reservation ----------

  datatype Code =
    | DispatchClaimed | DispatchDelivered | DispatchUnresolved | ProvisionalSettlement | LateSettlement | Correction
    | SettlementFinal | ReservationExceeded | CallCanceled | CancellationUnclear

  datatype Change = Refused | Repeated | Changed(res: Reservation, tenant: Tenant, code: Code)

  function ApplyDispatch(r: Reservation, t: Tenant, status: Status): Change {
    match status
    case Claim =>
      if r.phase != Reserved || r.outbox != Pending then Refused
      else Changed(r.(phase := DispatchPending, outbox := Claimed), t, DispatchClaimed)
    case Deliver =>
      if r.phase != DispatchPending || r.outbox != Claimed then Refused
      else Changed(r.(phase := Dispatched, outbox := Delivered), t, DispatchDelivered)
    case Ambiguous =>
      if r.phase != DispatchPending || r.outbox != Claimed then Refused
      else Changed(r.(phase := Unresolved), t, DispatchUnresolved)
    case FailUnbilled => Refused
  }

  function Release(r: Reservation, t: Tenant): (Reservation, Tenant) {
    (r.(hold := 0, guard := 0), t.(reserved := t.reserved - (r.hold + r.guard)))
  }

  function ApplyCancel(r: Reservation, t: Tenant, authoritative: bool): Change {
    var (r', t') := Release(r.(outbox := Canceled), t);
    match r.phase
    case Reserved =>
      if r.outbox != Pending then Refused else Changed(r'.(phase := CanceledUnbilled), t', CallCanceled)
    case DispatchPending | Dispatched | Unresolved =>
      if !authoritative then Changed(r.(phase := Unresolved), t, CancellationUnclear)
      else Changed(r'.(phase := FailedUnbilled), t', CallCanceled)
    case CanceledUnbilled | FailedUnbilled => Repeated
    case _ => Refused
  }

  function Max0(x: int): int {
    if x < 0 then 0 else x
  }

  /** The audit credit of a cost below the first one reported. */
  function Recredit(r: Reservation, t: Tenant, cost: int): (Reservation, Tenant) {
    var credit := Max0(r.base - cost);
    (r.(credit := credit), t.(credit := t.credit + (credit - r.credit)))
  }

  /** A correction after finality: a higher cost is debt, a lower one audit credit only. */
  function CorrectFinal(r: Reservation, t: Tenant, event: string, version: int, cost: int): (Reservation, Tenant) {
    var debt := if r.carried then cost else cost - r.base;
    var raises := cost > r.cost && cost > r.base;
    var r1 := if raises then r.(carry := debt) else r;
    var t1 := if raises then t.(carried := t.carried + (debt - r.carry)) else t;
    var (r2, t2) := Recredit(r1, t1, cost);
    (r2.(version := version, cost := cost, lastUsage := event), t2)
  }

  function Late(r: Reservation, t: Tenant): bool {
    r.phase == Unresolved || t.window != r.origin
  }

  /** The accounting of a new usage version before finality. */
  function BookUsage(r: Reservation, t: Tenant, event: string, version: int, cost: int): (Reservation, Tenant) {
    var left := Max0(r.amount - cost);
    var booked := r.(cost := cost, hold := left, version := version, lastUsage := event,
                     base := if r.version == 0 then cost else r.base);
    var freed := t.(reserved := t.reserved + (left - r.hold));
    if r.version == 0 && Late(r, t) then
      (booked.(carried := true, carry := cost, enforcement := t.window), freed.(carried := t.carried + cost))
    else if r.carried then
      if cost > r.carry then
        Recredit(booked.(carry := cost), freed.(carried := t.carried + (cost - r.carry)), cost)
      else if cost < r.carry then Recredit(booked.(hold := r.hold), t, cost)
      else (booked, t)
    else if r.enforcement.Some? && r.enforcement != t.window then
      // Hold and guard move oppositely.
      Recredit(booked.(guard := r.guard + (cost - r.cost)), freed.(reserved := freed.reserved + (cost - r.cost)), cost)
    else (booked.(settled := cost), freed.(settled := t.settled + (cost - r.cost)))
  }

  function Close(r: Reservation, t: Tenant, event: string, exceeds: bool): Change {
    var (r', t') := Release(r, t);
    var closed := r'.(final := true, lastUsage := event, phase := if r.carried then LateFinalized else Finalized);
    Changed(closed, t', if exceeds then ReservationExceeded else if r.carried then LateSettlement else SettlementFinal)
  }

  function Leave(r: Reservation, t: Tenant, exceeds: bool): Change {
    if exceeds then Changed(r.(phase := CorrectedProvisional), t, ReservationExceeded)
    else if r.version > 1 then Changed(r.(phase := CorrectedProvisional), t, Correction)
    else if r.carried || Late(r, t) then Changed(r.(phase := LateSettledProvisional), t, LateSettlement)
    else Changed(r.(phase := SettledProvisional), t, ProvisionalSettlement)
  }

  /** A usage report before finality. */
  function Report(r: Reservation, t: Tenant, event: string, a: Action, cost: int, final: bool, exceeded: bool): Change
    requires a.Settling?
  {
    var exceeds := cost > r.amount || exceeded;
    if r.version == 0 && (a.version != 1 || a.predecessor != "") then Refused
    else if a.version < r.version then Refused
    else if a.version == r.version && r.version != 0 then
      if cost != r.cost then Refused
      else if !final then Repeated
      else if a.predecessor != r.lastUsage then Refused
      else Close(r, t, event, exceeds)
    else if r.version > 0 && (a.version != r.version + 1 || a.predecessor != r.lastUsage) then Refused
    else
      var (r', t') := BookUsage(r, t, event, a.version, cost);
      if final then Close(r', t', event, exceeds) else Leave(r', t', exceeds)
  }

  function ApplySettlement(r: Reservation, t: Tenant, event: string, a: Action, bill: Option<Bill>): Change
    requires a.Settling?
  {
    if bill.None? then Refused
    else
      var cost := bill.value.cost;
      if a.claimed != 0 && a.claimed != cost then Refused
      else if cost < 0 || a.version <= 0 then Refused
      else if r.phase in {CanceledUnbilled, FailedUnbilled} then Refused
      else if r.phase == Reserved || r.outbox == Pending then Refused
      else if r.final then
        if a.version != r.version + 1 || a.predecessor != r.lastUsage then Refused
        else
          var (r', t') := CorrectFinal(r, t, event, a.version, cost);
          var exceeds := cost > r.cost && (cost > r.amount || bill.value.exceeded);
          Changed(r', t', if exceeds then ReservationExceeded else Correction)
      else Report(r.(outbox := Delivered), t, event, a, cost, a.final && !bill.value.missing, bill.value.exceeded)
  }

  // ---------- windows ----------

  /** Settled in the window that ends, not yet final, and not already external debt. */
  predicate Rolls(r: Reservation, tenant: string, window: Option<Window>) {
    r.tenant == tenant && r.phase in {SettledProvisional, CorrectedProvisional} && !r.carried && r.enforcement == window
  }

  /** The guard takes over what the closed window's total no longer shows. */
  function Rolled(r: Reservation, tenant: string, window: Option<Window>): Reservation {
    if Rolls(r, tenant, window) then r.(guard := r.guard + r.cost) else r
  }

  function GuardOf(tenant: string, window: Option<Window>): Reservation -> int {
    (r: Reservation) => if Rolls(r, tenant, window) then r.cost else 0
  }

  function AllRolled(m: map<string, Reservation>, tenant: string, window: Option<Window>): map<string, Reservation> {
    map id | id in m :: Rolled(m[id], tenant, window)
  }

  ghost function RollOver(s: Books, tenant: string, next: Window): Books
    requires tenant in s.tenants
  {
    var t := s.tenants[tenant];
    var t' := t.(reserved := t.reserved + SumMap(s.reservations, GuardOf(tenant, t.window)), settled := 0,
                 window := Some(next));
    s.(reservations := AllRolled(s.reservations, tenant, t.window), tenants := s.tenants[tenant := t'])
  }

  /** The loop of a rollover: the reservations of ids are still to come, added is what the others' guards keep. */
  ghost predicate PartRolled(before: map<string, Reservation>, now: map<string, Reservation>, ids: set<string>,
                             tenant: string, window: Option<Window>, added: int)
  {
    && ids <= before.Keys == now.Keys
    && (forall id {:trigger now[id]} | id in before ::
          now[id] == if id in ids then before[id] else Rolled(before[id], tenant, window))
    && added == SumMap(before - ids, GuardOf(tenant, window))
  }

  lemma RollStart(before: map<string, Reservation>, tenant: string, window: Option<Window>)
    ensures PartRolled(before, before, before.Keys, tenant, window, 0)
  {
    assert before - before.Keys == map[];
  }

  lemma RollNext(before: map<string, Reservation>, now: map<string, Reservation>, ids: set<string>, tenant: string,
                 window: Option<Window>, added: int, id: string)
    requires PartRolled(before, now, ids, tenant, window, added) && id in ids
    ensures PartRolled(before, now[id := Rolled(now[id], tenant, window)], ids - {id}, tenant, window,
                       added + if Rolls(now[id], tenant, window) then now[id].cost else 0)
  {
    SumPut(before - ids, id, before[id], GuardOf(tenant, window));
    assert (before - ids)[id := before[id]] == before - (ids - {id});
  }

  lemma RollDone(before: map<string, Reservation>, now: map<string, Reservation>, tenant: string, window: Option<Window>,
                 added: int)
    requires PartRolled(before, now, {}, tenant, window, added)
    ensures now == AllRolled(before, tenant, window) && added == SumMap(before, GuardOf(tenant, window))
  {
    assert before - {} == before;
  }

  /** The window a clock moves a tenant to; None when the clock has no such window or moved back. */
  ghost function Advance(s: Books, tenant: string, clock: Clock): Option<Books> {
    var t := TenantOf(s, tenant);
    if tenant !in s.tenants || t.window.None? || t.period == "" then Some(s)
    else
      var next := clock(t.period);
      if next.None? then None
      else if next == t.window then Some(s)
      else if next.value.start <= t.window.value.start then None
      else Some(RollOver(s, tenant, next.value))
  }

  // ---------- events ----------

  datatype Reply = Accepted(code: Code) | Replayed | Declined

  predicate ValidCaller(m: Message) {
    && m.request != "" && m.event != "" && m.attempt != ""
    && m.owner == m.caller && m.caller.tenant != "" && m.caller.workload != ""
  }

  predicate Owns(r: Reservation, p: Principal) {
    r.tenant == p.tenant && r.workload == p.workload
  }

  function Act(rules: Rules, r: Reservation, t: Tenant, m: Message): Change {
    match m.action
    case Dispatching(status, _) => ApplyDispatch(r, t, status)
    case Settling(usage, _, _, _, _) => ApplySettlement(r, t, m.event, m.action, rules.price(r.prices, usage))
    case Canceling(_, authoritative) => ApplyCancel(r, t, authoritative)
  }

  /** The changed reservation and tenant are stored, and the event is bound to its payload. */
  function Store(s: Books, m: Message, r: Reservation, t: Tenant): Books {
    var t' := if Active(r.phase) then t else t.(active := t.active - {m.request});
    Books(s.reservations[m.request := r], s.inbox[m.event := Event(m.request, Some(Payload(m)))],
          s.tenants[r.tenant := t'], s.adjustments)
  }

  /** A message the ledger acts on: new, for a reservation of the caller, for its attempt and route. */
  predicate Admissible(s: Books, m: Message) {
    && ValidCaller(m) && m.event !in s.inbox && m.request in s.reservations
    && Owns(s.reservations[m.request], m.caller) && m.attempt == s.reservations[m.request].attempt
    && (m.action.Dispatching? ==> m.action.route == s.reservations[m.request].route)
  }

  /**
   Dispatch, Settle and Cancel. The reservation is read before the window advances and, as in the in-memory ledger,
   not read again; reread says to read it again, as the PostgreSQL ledger does.
   */
  ghost function Handle(rules: Rules, s: Books, m: Message, clock: Clock, reread: bool): (Books, Reply) {
    if ValidCaller(m) && m.event in s.inbox then
      (s, if && s.inbox[m.event] == Event(m.request, Some(Payload(m))) && m.request in s.reservations
             && Owns(s.reservations[m.request], m.caller) then Replayed else Declined)
    else if !Admissible(s, m) then (s, Declined)
    else
      var r := s.reservations[m.request];
      match Advance(s, r.tenant, clock)
      case None => (s, Declined)
      case Some(s1) =>
        var r1 := if reread && m.request in s1.reservations then s1.reservations[m.request] else r;
        match Act(rules, r1, TenantOf(s1, r.tenant), m)
        case Refused => (s1, Declined)
        case Repeated => (s1, Replayed)
        case Changed(r2, t2, code) => (Store(s1, m, r2, t2), Accepted(code))
  }

  // ---------- admission ----------

  /** A governed candidate with what it would reserve. */
  datatype Offer = Offer(model: string, route: string, prices: string, quality: real, latency: int, amount: nat)

  datatype Objective = Cheapest | Quality | Latency

  /** The order of the choice: the objective, then the reservation, then the model's name. */
  predicate NoWorse(o: Objective, a: Offer, b: Offer) {
    if o == Quality && a.quality != b.quality then a.quality > b.quality
    else if o == Latency && a.latency != b.latency then a.latency < b.latency
    else if a.amount != b.amount then a.amount < b.amount
    else Router.StrLe(a.model, b.model)
  }

  function ByObjective(o: Objective): (Offer, Offer) -> bool {
    (a, b) => NoWorse(o, a, b)
  }

  function Fitting(offers: seq<Offer>, available: int): seq<Offer> {
    if offers == [] then []
    else Fitting(offers[..|offers| - 1], available)
         + if offers[|offers| - 1].amount > available then [] else [offers[|offers| - 1]]
  }

  datatype Policy = Policy(identity: string, period: string, budget: int)

  /**
   sound is the check of the request's own fields, ready that of policies, targets and approval, enrolled that of the
   cohort; offers are the candidates feasible before the budget.
   */
  datatype Admission = Admission(request: string, caller: Principal, fingerprint: string, sound: bool, ready: bool,
                                 policy: Policy, offers: seq<Offer>, objective: Objective, enrolled: bool, expiry: int)

  /** Withheld is any of reject, abstain and require approval; Failed is an error. */
  datatype Decision = Granted(offer: Offer) | Existing | Queued | Withheld | Failed

  function Best(o: Objective, choices: seq<Offer>): (best: Offer)
    requires choices != []
    ensures best in choices
  {
    var sorted := Sort(choices, ByObjective(o));
    assert |sorted| == |multiset(sorted)| == |multiset(choices)| == |choices|;
    assert sorted[0] in multiset(sorted);
    sorted[0]
  }

  /** The tenant bound to a policy and a window; None for a conflict with the current ones. */
  ghost function Bind(s: Books, tenant: string, p: Policy, w: Window): Option<Books> {
    var t := TenantOf(s, tenant);
    if t.window == Some(w) && ((t.identity != "" && t.identity != p.identity) || t.budget != p.budget) then None
    else if t.window.Some? && t.window != Some(w) && w.start <= t.window.value.start then None
    else
      var s0 := s.(tenants := s.tenants[tenant := t]);
      var s1 := if t.window.Some? && t.window != Some(w) then RollOver(s0, tenant, w) else s0;
      var bound := s1.tenants[tenant].(identity := p.identity, window := Some(w), period := p.period, budget := p.budget);
      Some(s1.(tenants := s1.tenants[tenant := bound]))
  }

  function NewReservation(a: Admission, o: Offer, w: Option<Window>): Reservation {
    Reservation(a.caller.tenant, a.caller.workload, a.fingerprint, a.request + ":attempt:1", o.route, o.prices, Reserved,
                Pending, o.amount, o.amount, 0, 0, 0, 0, 0, false, false, 0, 0, w, w, "", a.expiry)
  }

  function Hold(s: Books, a: Admission, o: Offer): Books {
    var t := TenantOf(s, a.caller.tenant);
    var t' := t.(reserved := t.reserved + o.amount, active := t.active + {a.request});
    s.(reservations := s.reservations[a.request := NewReservation(a, o, t.window)],
       tenants := s.tenants[a.caller.tenant := t'])
  }

  /** The choice among the offers that fit, and its hold. */
  function Decide(s: Books, a: Admission): (Books, Decision) {
    var choices := Fitting(a.offers, Available(TenantOf(s, a.caller.tenant)));
    if choices == [] then (s, if a.offers == [] then Withheld else Queued)
    else if !a.enrolled then (s, Withheld)
    else (Hold(s, a, Best(a.objective, choices)), Granted(Best(a.objective, choices)))
  }

  ghost function Admit(s: Books, a: Admission, clock: Clock): (Books, Decision) {
    if !a.sound then (s, Failed)
    else if a.request in s.reservations then
      var r := s.reservations[a.request];
      (s, if !Owns(r, a.caller) || r.fingerprint != a.fingerprint then Failed
          else if !Active(r.phase) then Withheld else Existing)
    else if !a.ready then (s, Withheld)
    else if a.policy.budget < 0 || clock(a.policy.period).None? then (s, Failed)
    else
      match Bind(s, a.caller.tenant, a.policy, clock(a.policy.period).value)
      case None => (s, Withheld)
      case Some(s1) => Decide(s1, a)
  }

  // ---------- expiry and adjustment ----------

  function ExpiryEvent(rules: Rules, id: string, r: Reservation): string {
    (if r.phase == Reserved then "expiry:" else "expiry-unresolved:") + id + ":" + rules.digits(r.expiry)
  }

  /** One reservation of the expiry sweep: a pending call is released, a possibly billable one keeps its hold. */
  function Expire(rules: Rules, s: Books, id: string, at: int): Books {
    if id !in s.reservations || s.reservations[id].expiry > at then s
    else
      var r, t := s.reservations[id], TenantOf(s, s.reservations[id].tenant);
      var event := ExpiryEvent(rules, id, r);
      if event in s.inbox then s
      else if r.phase == Reserved && r.outbox == Pending then
        var (r', t') := Release(r.(phase := ExpiredUndispatched, outbox := Canceled), t);
        Books(s.reservations[id := r'], s.inbox[event := Event(id, None)],
              s.tenants[r.tenant := t'.(active := t.active - {id})], s.adjustments)
      else if r.phase in {DispatchPending, Dispatched} then
        s.(reservations := s.reservations[id := r.(phase := Unresolved)], inbox := s.inbox[event := Event(id, None)])
      else s
  }

  function Swept(rules: Rules, s: Books, ids: seq<string>, at: int): Books {
    if ids == [] then s else Expire(rules, Swept(rules, s, ids[..|ids| - 1], at), ids[|ids| - 1], at)
  }

  /** authorised is the check of the authority's proof. */
  ghost function Adjust(s: Books, a: Adjustment, authorised: bool, clock: Clock): (Books, bool) {
    if a.id == "" || a.approver == "" || a.reason == "" || a.budget < 0 || a.payment < 0 || !authorised then (s, false)
    else if a.id in s.adjustments then (s, s.adjustments[a.id] == a)
    else if a.tenant !in s.tenants then (s, false)
    else
      match Advance(s, a.tenant, clock)
      case None => (s, false)
      case Some(s1) =>
        var t := TenantOf(s1, a.tenant);
        if t.window != a.window || a.payment > t.carried then (s1, false)
        else
          (s1.(tenants := s1.tenants[a.tenant := t.(carried := t.carried - a.payment, budget := a.budget)],
               adjustments := s1.adjustments[a.id := a]), true)
  }

  /** Asking for the liability of a tenant advances its window, and makes an unknown tenant. */
  ghost function Looked(s: Books, tenant: string, clock: Clock): Books {
    var s1 := if Advance(s, tenant, clock).Some? then Advance(s, tenant, clock).value else s;
    s1.(tenants := s1.tenants[tenant := TenantOf(s1, tenant)])
  }

  // ---------- the engine ----------

  /** The in-memory ledger; its mutex makes every method one step. */
  class Engine {
    const rules: Rules
    var reservations: map<string, Reservation>
    var inbox: map<string, Event>
    var tenants: map<string, Tenant>
    var adjustments: map<string, Adjustment>

    constructor (rules: Rules)
      ensures Contents() == NO_BOOKS && this.rules == rules
    {
      this.rules := rules;
      reservations, inbox, tenants, adjustments := map[], map[], map[], map[];
    }

    ghost function Contents(): Books
      reads this
    {
      Books(reservations, inbox, tenants, adjustments)
    }

    method RollOne(id: string, tenant: string, window: Option<Window>) returns (cost: int)
      requires id in reservations
      modifies `reservations
      ensures reservations == old(reservations)[id := Rolled(old(reservations)[id], tenant, window)]
      ensures cost == if Rolls(old(reservations)[id], tenant, window) then old(reservations)[id].cost else 0
    {
      var r := reservations[id];
      cost := 0;
      if Rolls(r, tenant, window) {
        reservations := reservations[id := r.(guard := r.guard + r.cost)];
        cost := r.cost;
      } else {
        assert reservations == reservations[id := r];
      }
    }

    /** The loop over the reservations, in any order; added is what their guards keep. */
    method RollReservations(tenant: string, window: Option<Window>) returns (added: int)
      modifies `reservations
      ensures reservations == AllRolled(old(reservations), tenant, window)
      ensures added == SumMap(old(reservations), GuardOf(tenant, window))
    {
      ghost var before := reservations;
      var ids := reservations.Keys;
      added := 0;
      RollStart(before, tenant, window);
      while ids != {}
        invariant PartRolled(before, reservations, ids, tenant, window, added)
        decreases |ids|
      {
        var id :| id in ids;
        RollNext(before, reservations, ids, tenant, window, added, id);
        var cost := RollOne(id, tenant, window);
        added, ids := added + cost, ids - {id};
      }
      RollDone(before, reservations, tenant, window, added);
    }

    method Roll(tenant: string, next: Window)
      requires tenant in tenants
      modifies `reservations, `tenants
      ensures Contents() == RollOver(old(Contents()), tenant, next)
    {
      var t := tenants[tenant];
      var added := RollReservations(tenant, t.window);
      tenants := tenants[tenant := t.(reserved := t.reserved + added, settled := 0, window := Some(next))];
    }

    method AdvanceWindow(tenant: string, clock: Clock) returns (ok: bool)
      modifies `reservations, `tenants
      ensures ok == Advance(old(Contents()), tenant, clock).Some?
      ensures Contents() == if ok then Advance(old(Contents()), tenant, clock).value else old(Contents())
    {
      if tenant !in tenants || tenants[tenant].window.None? || tenants[tenant].period == "" {
        return true;
      }
      var next := clock(tenants[tenant].period);
      if next.None? {
        return false;
      }
      if next == tenants[tenant].window {
        return true;
      }
      if next.value.start <= tenants[tenant].window.value.start {
        return false;
      }
      Roll(tenant, next.value);
      ok := true;
    }

    /** Dispatch, Settle and Cancel. */
    method Receive(m: Message, clock: Clock) returns (reply: Reply)
      modifies `reservations, `inbox, `tenants
      ensures (Contents(), reply) == Handle(rules, old(Contents()), m, clock, false)
    {
      if !ValidCaller(m) {
        return Declined;
      }
      if m.event in inbox {
        var same := inbox[m.event] == Event(m.request, Some(Payload(m)));
        if same && m.request in reservations && Owns(reservations[m.request], m.caller) {
          return Replayed;
        }
        return Declined;
      }
      if m.request !in reservations {
        return Declined;
      }
      var r := reservations[m.request];
      if !Owns(r, m.caller) || m.attempt != r.attempt || (m.action.Dispatching? && m.action.route != r.route) {
        return Declined;
      }
      var ok := AdvanceWindow(r.tenant, clock);
      if !ok {
        return Declined;
      }
      var t := if r.tenant in tenants then tenants[r.tenant] else NEW_TENANT;
      match Act(rules, r, t, m) {
        case Refused => reply := Declined;
        case Repeated => reply := Replayed;
        case Changed(r', t', code) =>
          reservations := reservations[m.request := r'];
          inbox := inbox[m.event := Event(m.request, Some(Payload(m)))];
          if !Active(r'.phase) {
            t' := t'.(active := t'.active - {m.request});
          }
          tenants := tenants[r'.tenant := t'];
          reply := Accepted(code);
      }
    }

    method BindTenant(tenant: string, p: Policy, w: Window) returns (ok: bool)
      modifies `reservations, `tenants
      ensures ok == Bind(old(Contents()), tenant, p, w).Some?
      ensures Contents() == if ok then Bind(old(Contents()), tenant, p, w).value else old(Contents())
    {
      var t := if tenant in tenants then tenants[tenant] else NEW_TENANT;
      if t.identity != "" && t.window == Some(w) && t.identity != p.identity {
        return false;
      }
      if t.window == Some(w) && t.budget != p.budget {
        return false;
      }
      if t.window.Some? && t.window != Some(w) && w.start <= t.window.value.start {
        return false;
      }
      tenants := tenants[tenant := t];
      if t.window.Some? && t.window != Some(w) {
        Roll(tenant, w);
      }
      tenants := tenants[tenant := tenants[tenant].(identity := p.identity, window := Some(w), period := p.period,
                                                    budget := p.budget)];
      ok := true;
    }

    static method FittingOffers(offers: seq<Offer>, available: int) returns (choices: seq<Offer>)
      ensures choices == Fitting(offers, available)
    {
      choices := [];
      for i := 0 to |offers|
        invariant choices == Fitting(offers[..i], available)
      {
        assert offers[..i + 1][..i] == offers[..i];
        if offers[i].amount <= available {
          choices := choices + [offers[i]];
        }
      }
      assert offers[..|offers|] == offers;
    }

    method AdmitRequest(a: Admission, clock: Clock) returns (d: Decision)
      modifies `reservations, `tenants
      ensures (Contents(), d) == Admit(old(Contents()), a, clock)
    {
      if !a.sound {
        return Failed;
      }
      if a.request in reservations {
        var r := reservations[a.request];
        if !Owns(r, a.caller) || r.fingerprint != a.fingerprint {
          return Failed;
        }
        return if Active(r.phase) then Existing else Withheld;
      }
      if !a.ready {
        return Withheld;
      }
      var w := clock(a.policy.period);
      if a.policy.budget < 0 || w.None? {
        return Failed;
      }
      var ok := BindTenant(a.caller.tenant, a.policy, w.value);
      if !ok {
        return Withheld;
      }
      d := ChooseAndHold(a);
    }

    method ChooseAndHold(a: Admission) returns (d: Decision)
      requires a.caller.tenant in tenants
      modifies `reservations, `tenants
      ensures (Contents(), d) == Decide(old(Contents()), a)
    {
      var t := tenants[a.caller.tenant];
      var choices := FittingOffers(a.offers, Available(t));
      if choices == [] {
        return if a.offers == [] then Withheld else Queued;
      }
      if !a.enrolled {
        return Withheld;
      }
      var best := Best(a.objective, choices);
      reservations := reservations[a.request := NewReservation(a, best, t.window)];
      tenants := tenants[a.caller.tenant := t.(reserved := t.reserved + best.amount, active := t.active + {a.request})];
      d := Granted(best);
    }

    /** The expiry sweep, over the reservations in any order. */
    method ReconcileExpired(at: int) returns (ghost order: seq<string>)
      modifies `reservations, `inbox, `tenants
      ensures multiset(order) == multiset(old(reservations).Keys)
      ensures Contents() == Swept(rules, old(Contents()), order, at)
    {
      var ids := reservations.Keys;
      order := [];
      while ids != {}
        invariant multiset(order) + multiset(ids) == multiset(old(reservations).Keys)
        invariant Contents() == Swept(rules, old(Contents()), order, at)
        decreases |ids|
      {
        var id :| id in ids;
        ExpireOne(id, at);
        assert (order + [id])[..|order|] == order;
        order, ids := order + [id], ids - {id};
      }
    }

    method ExpireOne(id: string, at: int)
      modifies `reservations, `inbox, `tenants
      ensures Contents() == Expire(rules, old(Contents()), id, at)
    {
      if id !in reservations || reservations[id].expiry > at {
        return;
      }
      var r := reservations[id];
      var t := if r.tenant in tenants then tenants[r.tenant] else NEW_TENANT;
      var event := ExpiryEvent(rules, id, r);
      if event in inbox {
        return;
      }
      if r.phase == Reserved && r.outbox == Pending {
        inbox := inbox[event := Event(id, None)];
        tenants := tenants[r.tenant := t.(reserved := t.reserved - (r.hold + r.guard), active := t.active - {id})];
        reservations := reservations[id := r.(phase := ExpiredUndispatched, outbox := Canceled, hold := 0, guard := 0)];
      } else if r.phase in {DispatchPending, Dispatched} {
        inbox := inbox[event := Event(id, None)];
        reservations := reservations[id := r.(phase := Unresolved)];
      }
    }

    method AdjustBudget(a: Adjustment, authorised: bool, clock: Clock) returns (ok: bool)
      modifies `reservations, `tenants, `adjustments
      ensures (Contents(), ok) == Adjust(old(Contents()), a, authorised, clock)
    {
      if a.id == "" || a.approver == "" || a.reason == "" || a.budget < 0 || a.payment < 0 || !authorised {
        return false;
      }
      if a.id in adjustments {
        return adjustments[a.id] == a;
      }
      if a.tenant !in tenants {
        return false;
      }
      ok := AdvanceWindow(a.tenant, clock);
      if !ok {
        return;
      }
      var t := tenants[a.tenant];
      if t.window != a.window || a.payment > t.carried {
        return false;
      }
      tenants := tenants[a.tenant := t.(carried := t.carried - a.payment, budget := a.budget)];
      adjustments := adjustments[a.id := a];
    }

    /** The liability of a tenant. */
    method Liability(tenant: string, clock: Clock) returns (t: Tenant)
      modifies `reservations, `tenants
      ensures Contents() == Looked(old(Contents()), tenant, clock)
      ensures tenant in tenants && t == tenants[tenant]
    {
      var ok := AdvanceWindow(tenant, clock);
      t := if tenant in tenants then tenants[tenant] else NEW_TENANT;
      tenants := tenants[tenant := t];
    }
  }
}
