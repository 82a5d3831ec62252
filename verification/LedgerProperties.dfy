/** What the reservation ledger keeps over every history, and where it does not. */
module LedgerProperties {
  import opened Ledger
  import opened MapSums
  import opened Wrappers

  // ---------- one reservation ----------

  predicate Final(p: Phase) {
    p in {Finalized, LateFinalized}
  }

  predicate Unbilled(p: Phase) {
    p in {Reserved, DispatchPending, Dispatched, Unresolved, CanceledUnbilled, FailedUnbilled, ExpiredUndispatched}
  }

  predicate Behind(w: Option<Window>, now: Option<Window>) {
    w.Some? && now.Some? && (w == now || w.value.start < now.value.start)
  }

  /** The cost the hold is reckoned against: the highest yet for external debt, else the last. */
  function Basis(r: Reservation): int {
    if r.carried then r.carry else r.cost
  }

  predicate Sound(r: Reservation, now: Option<Window>) {
    && Behind(r.enforcement, now) && r.version >= 0 && r.cost >= 0 && r.carry >= 0 && r.settled >= 0
    && (r.final <==> Final(r.phase)) && (r.version > 0 <==> !Unbilled(r.phase))
    && (!Active(r.phase) ==> r.hold == 0 && r.guard == 0)
    && (r.carried ==> r.guard == 0 && (!r.final ==> r.carry >= r.cost))
    && (!r.carried ==> r.origin == r.enforcement && (!r.final ==> r.carry == 0))
    && (r.version == 0 ==> !r.carried && r.cost == 0 && r.settled == 0 && r.credit == 0 && r.guard == 0)
    && (r.version == 0 && Active(r.phase) ==> r.hold == r.amount)
    && (r.version > 0 && !r.final ==> r.hold == Max0(r.amount - Basis(r)))
    && (r.version > 0 && !r.final && !r.carried && r.enforcement == now ==> r.settled == r.cost)
  }

  // ---------- the four accounts ----------

  datatype Account = Held | SettledHere | Debt | Credit

  /** What a reservation contributes to an account of a tenant whose current window is window. */
  function EntryIn(a: Account, window: Option<Window>, r: Reservation): int {
    match a
    case Held => r.hold + r.guard
    case SettledHere => if !r.carried && r.enforcement == window then r.settled else 0
    case Debt => r.carry
    case Credit => r.credit
  }

  function Entry(a: Account, tenant: string, window: Option<Window>): Reservation -> int {
    (r: Reservation) => if r.tenant == tenant then EntryIn(a, window, r) else 0
  }

  function Balance(a: Account, t: Tenant): int {
    match a
    case Held => t.reserved
    case SettledHere => t.settled
    case Debt => t.carried
    case Credit => t.credit
  }

  /** A change of one reservation and its tenant that keeps every account in step. */
  ghost predicate InStep(r: Reservation, t: Tenant, r': Reservation, t': Tenant) {
    && r'.tenant == r.tenant && r'.workload == r.workload && r'.amount == r.amount
    && t' == t.(reserved := t'.reserved, settled := t'.settled, carried := t'.carried, credit := t'.credit)
    && forall a :: Balance(a, t') - Balance(a, t) == EntryIn(a, t.window, r') - EntryIn(a, t.window, r)
  }

  lemma BookInStep(r: Reservation, t: Tenant, event: string, version: int, cost: int)
    requires Sound(r, t.window) && !r.final && cost >= 0 && version > 0
    ensures var (r', t') := BookUsage(r, t, event, version, cost);
      && InStep(r, t, r', t') && r'.version == version && r'.phase == r.phase && !r'.final
      && (forall p | p in {SettledProvisional, LateSettledProvisional, CorrectedProvisional} ::
            Sound(r'.(phase := p), t.window))
  {
  }

  lemma CloseInStep(r: Reservation, t: Tenant, event: string, exceeds: bool)
    requires r.version > 0 && !r.final && Sound(r.(phase := CorrectedProvisional), t.window)
    ensures var c := Close(r, t, event, exceeds); InStep(r, t, c.res, c.tenant) && Sound(c.res, t.window)
  {
  }

  lemma CorrectInStep(r: Reservation, t: Tenant, event: string, version: int, cost: int)
    requires Sound(r, t.window) && r.final && cost >= 0 && version > 0
    ensures var (r', t') := CorrectFinal(r, t, event, version, cost); InStep(r, t, r', t') && Sound(r', t.window)
  {
  }

  lemma InStepTrans(r: Reservation, t: Tenant, r1: Reservation, t1: Tenant, r2: Reservation, t2: Tenant)
    requires InStep(r, t, r1, t1) && InStep(r1, t1, r2, t2)
    ensures InStep(r, t, r2, t2)
  {
    forall a ensures Balance(a, t2) - Balance(a, t) == EntryIn(a, t.window, r2) - EntryIn(a, t.window, r) {
      assert Balance(a, t1) - Balance(a, t) == EntryIn(a, t.window, r1) - EntryIn(a, t.window, r);
    }
  }

  lemma NewUsageInStep(r: Reservation, t: Tenant, event: string, version: int, cost: int, final: bool, exceeds: bool)
    requires Sound(r, t.window) && !r.final && cost >= 0 && version > 0
    ensures var (r', t') := BookUsage(r, t, event, version, cost);
      var c := if final then Close(r', t', event, exceeds) else Leave(r', t', exceeds);
      InStep(r, t, c.res, c.tenant) && Sound(c.res, t.window)
  {
    hide BookUsage;
    var (r', t') := BookUsage(r, t, event, version, cost);
    BookInStep(r, t, event, version, cost);
    var c := if final then Close(r', t', event, exceeds) else Leave(r', t', exceeds);
    if final {
      assert Sound(r'.(phase := CorrectedProvisional), t'.window);
      CloseInStep(r', t', event, exceeds);
    } else {
      assert Sound(r'.(phase := c.res.phase), t.window);
      assert InStep(r', t', c.res, c.tenant);
    }
    InStepTrans(r, t, r', t', c.res, c.tenant);
  }

  lemma ReportInStep(r: Reservation, t: Tenant, event: string, a: Action, cost: int, final: bool, exceeded: bool)
    requires Sound(r, t.window) && !r.final && a.Settling? && cost >= 0 && a.version > 0
    requires Report(r, t, event, a, cost, final, exceeded).Changed?
    ensures var c := Report(r, t, event, a, cost, final, exceeded); InStep(r, t, c.res, c.tenant) && Sound(c.res, t.window)
  {
    var exceeds := cost > r.amount || exceeded;
    if a.version == r.version {
      CloseInStep(r, t, event, exceeds);
    } else {
      NewUsageInStep(r, t, event, a.version, cost, final, exceeds);
    }
  }

  lemma SettlementInStep(r: Reservation, t: Tenant, event: string, a: Action, bill: Option<Bill>)
    requires Sound(r, t.window) && a.Settling? && ApplySettlement(r, t, event, a, bill).Changed?
    ensures var c := ApplySettlement(r, t, event, a, bill); InStep(r, t, c.res, c.tenant) && Sound(c.res, t.window)
  {
    var cost, r0 := bill.value.cost, r.(outbox := Delivered);
    if r.final {
      CorrectInStep(r, t, event, a.version, cost);
    } else {
      ReportInStep(r0, t, event, a, cost, a.final && !bill.value.missing, bill.value.exceeded);
      assert InStep(r, t, r0, t);
      var c := ApplySettlement(r, t, event, a, bill);
      InStepTrans(r, t, r0, t, c.res, c.tenant);
    }
  }

  lemma ActInStep(rules: Rules, r: Reservation, t: Tenant, m: Message)
    requires Sound(r, t.window) && Act(rules, r, t, m).Changed?
    ensures var c := Act(rules, r, t, m); InStep(r, t, c.res, c.tenant) && Sound(c.res, t.window)
  {
    if m.action.Settling? {
      SettlementInStep(r, t, m.event, m.action, rules.price(r.prices, m.action.usage));
    }
  }

  // ---------- the books ----------

  function Payment(tenant: string): Adjustment -> int {
    (a: Adjustment) => if a.tenant == tenant then a.payment else 0
  }

  /** How far a tenant's total is from the sum of its reservations' entries, less what was paid of its debt. */
  ghost function Drift(s: Books, a: Account, tenant: string): int {
    var t := TenantOf(s, tenant);
    Balance(a, t) - SumMap(s.reservations, Entry(a, tenant, t.window))
    + if a == Debt then SumMap(s.adjustments, Payment(tenant)) else 0
  }

  predicate Blank(t: Tenant) {
    t.settled == 0 && t.reserved == 0 && t.carried == 0 && t.credit == 0
  }

  ghost predicate Kept(s: Books, id: string)
    requires id in s.reservations
  {
    var r := s.reservations[id];
    r.tenant in s.tenants && Sound(r, s.tenants[r.tenant].window)
  }

  ghost predicate Inv(s: Books) {
    && (forall id {:trigger Kept(s, id)} | id in s.reservations :: Kept(s, id))
    && forall id | id in s.tenants && s.tenants[id].window.None? :: Blank(s.tenants[id])
  }

  /** A sum over the reservations that no reservation of a tenant without a window can enter. */
  lemma NoEntries(s: Books, a: Account, tenant: string, window: Option<Window>)
    requires Inv(s) && TenantOf(s, tenant).window.None?
    ensures SumMap(s.reservations, Entry(a, tenant, window)) == 0
  {
    forall id | id in s.reservations ensures Entry(a, tenant, window)(s.reservations[id]) == 0 {
      assert Kept(s, id);
    }
    SumNothing(s.reservations, Entry(a, tenant, window));
  }

  // ---------- storing one reservation ----------

  lemma EntryElsewhere(r: Reservation, r': Reservation, a: Account, tenant: string, window: Option<Window>)
    requires r'.tenant == r.tenant != tenant
    ensures Entry(a, tenant, window)(r) == Entry(a, tenant, window)(r') == 0
  {
  }

  /** Changing one reservation and its tenant in step changes no drift; base is what the change was computed from. */
  lemma PutDrift(s: Books, s': Books, id: string, base: Reservation, t': Tenant, a: Account, tenant: string)
    requires id in s.reservations && s.reservations[id].tenant == base.tenant && base.tenant in s.tenants
    requires id in s'.reservations && s'.reservations == s.reservations[id := s'.reservations[id]]
    requires s'.tenants == s.tenants[base.tenant := t'] && s'.adjustments == s.adjustments
    requires t'.window == s.tenants[base.tenant].window
    requires InStep(base, s.tenants[base.tenant], s'.reservations[id], t'.(active := s.tenants[base.tenant].active))
    ensures Drift(s', a, tenant) == Drift(s, a, tenant)
         + if tenant == base.tenant then EntryIn(a, t'.window, s.reservations[id]) - EntryIn(a, t'.window, base) else 0
  {
    var w := TenantOf(s, tenant).window;
    SumPut(s.reservations, id, s'.reservations[id], Entry(a, tenant, w));
    if tenant != base.tenant {
      EntryElsewhere(s.reservations[id], s'.reservations[id], a, tenant, w);
    } else {
      var t := s.tenants[tenant];
      assert Balance(a, t'.(active := t.active)) - Balance(a, t)
          == EntryIn(a, t.window, s'.reservations[id]) - EntryIn(a, t.window, base);
      assert Balance(a, t'.(active := t.active)) == Balance(a, t');
    }
  }

  lemma PutInv(s: Books, s': Books, id: string, t': Tenant)
    requires Inv(s) && id in s'.reservations && s'.reservations == s.reservations[id := s'.reservations[id]]
    requires s'.tenants == s.tenants[s'.reservations[id].tenant := t'] && Sound(s'.reservations[id], t'.window)
    requires s'.reservations[id].tenant in s.tenants ==> t'.window == s.tenants[s'.reservations[id].tenant].window
    requires s'.reservations[id].tenant !in s.tenants ==>
               forall i | i in s.reservations :: s.reservations[i].tenant in s.tenants
    ensures Inv(s')
  {
    forall i | i in s'.reservations ensures Kept(s', i) {
      if i != id { assert Kept(s, i); }
    }
  }

  // ---------- a new window ----------

  lemma RolledSound(r: Reservation, tenant: string, window: Option<Window>, next: Window)
    requires Sound(r, window) && window.Some? && next.start > window.value.start
    ensures Sound(r, Some(next)) && Sound(Rolled(r, tenant, window), Some(next))
    ensures Rolls(r, tenant, window) ==> !r.final
  {
  }

  lemma RollOverInv(s: Books, tenant: string, next: Window)
    requires Inv(s) && tenant in s.tenants && s.tenants[tenant].window.Some?
    requires next.start > s.tenants[tenant].window.value.start
    ensures Inv(RollOver(s, tenant, next))
  {
    var s' := RollOver(s, tenant, next);
    forall id | id in s'.reservations ensures Kept(s', id) {
      assert Kept(s, id);
      if s.reservations[id].tenant == tenant {
        RolledSound(s.reservations[id], tenant, s.tenants[tenant].window, next);
      }
    }
  }

  lemma RolledEntry(r: Reservation, tenant: string, w: Option<Window>, next: Option<Window>, a: Account, other: string,
                    v: Option<Window>, v': Option<Window>)
    requires if other == tenant then a != SettledHere && v == w && v' == next else v' == v
    ensures Entry(a, other, v')(Rolled(r, tenant, w))
         == Entry(a, other, v)(r) + if a == Held && other == tenant then GuardOf(tenant, w)(r) else 0
  {
  }

  /** The settled total starts at zero, and so do the entries of the new window. */
  lemma RollOverSettled(s: Books, tenant: string, next: Window)
    requires Inv(s) && tenant in s.tenants && s.tenants[tenant].window.Some?
    requires next.start > s.tenants[tenant].window.value.start
    ensures Drift(RollOver(s, tenant, next), SettledHere, tenant) == 0
  {
    var s' := RollOver(s, tenant, next);
    forall id | id in s'.reservations ensures Entry(SettledHere, tenant, Some(next))(s'.reservations[id]) == 0 {
      assert Kept(s, id);
    }
    SumNothing(s'.reservations, Entry(SettledHere, tenant, Some(next)));
  }

  /** The guards enter the reserved total, and nothing else changes. */
  lemma RollOverDrift(s: Books, tenant: string, next: Window, a: Account, other: string)
    requires Inv(s) && tenant in s.tenants && !(a == SettledHere && other == tenant)
    ensures Drift(RollOver(s, tenant, next), a, other) == Drift(s, a, other)
  {
    var s', w := RollOver(s, tenant, next), s.tenants[tenant].window;
    var v, v' := TenantOf(s, other).window, TenantOf(s', other).window;
    var g := if a == Held && other == tenant then GuardOf(tenant, w) else (r: Reservation) => 0;
    forall id | id in s.reservations
      ensures Entry(a, other, v')(s'.reservations[id]) == Entry(a, other, v)(s.reservations[id]) + g(s.reservations[id])
    {
      RolledEntry(s.reservations[id], tenant, w, Some(next), a, other, v, v');
    }
    SumDiffer(s.reservations, s'.reservations, Entry(a, other, v), g, Entry(a, other, v'));
    if !(a == Held && other == tenant) { SumNothing(s.reservations, g); }
  }

  // ---------- every step ----------

  /** The invariant of every history: all totals but the reserved one are exact. */
  ghost predicate Good(s: Books) {
    Inv(s) && forall a, tenant {:trigger Drift(s, a, tenant)} :: a != Held ==> Drift(s, a, tenant) == 0
  }

  /** Nothing drifts but the reserved total of who, by lost. */
  ghost predicate Follows(s: Books, s': Books, who: string, lost: int) {
    && Inv(s')
    && forall a, tenant {:trigger Drift(s', a, tenant)} ::
         Drift(s', a, tenant) == Drift(s, a, tenant) + if a == Held && tenant == who then lost else 0
  }

  lemma RollOverFollows(s: Books, tenant: string, next: Window)
    requires Good(s) && tenant in s.tenants && s.tenants[tenant].window.Some?
    requires next.start > s.tenants[tenant].window.value.start
    ensures Follows(s, RollOver(s, tenant, next), tenant, 0)
  {
    var s' := RollOver(s, tenant, next);
    RollOverInv(s, tenant, next);
    forall a, other ensures Drift(s', a, other) == Drift(s, a, other) {
      if a == SettledHere && other == tenant {
        RollOverSettled(s, tenant, next);
        assert Drift(s, a, other) == 0;
      } else {
        RollOverDrift(s, tenant, next, a, other);
      }
    }
  }

  lemma AdvanceFollows(s: Books, tenant: string, clock: Clock)
    requires Good(s) && Advance(s, tenant, clock).Some?
    ensures Follows(s, Advance(s, tenant, clock).value, tenant, 0)
  {
    if Advance(s, tenant, clock).value != s {
      RollOverFollows(s, tenant, clock(s.tenants[tenant].period).value);
    }
  }

  /** An accepted message found the reservation as it was before this message's own rollover put a guard on it. */
  ghost predicate Stale(rules: Rules, s: Books, m: Message, clock: Clock) {
    && Admissible(s, m) && Handle(rules, s, m, clock, false).1.Accepted?
    && var r := s.reservations[m.request];
       && Advance(s, r.tenant, clock).Some?
       && TenantOf(Advance(s, r.tenant, clock).value, r.tenant).window != TenantOf(s, r.tenant).window
       && Rolls(r, r.tenant, TenantOf(s, r.tenant).window)
  }

  ghost function Lost(rules: Rules, s: Books, m: Message, clock: Clock, reread: bool): int {
    if !reread && Stale(rules, s, m, clock) then s.reservations[m.request].cost else 0
  }

  ghost function OwnerOf(s: Books, m: Message): string {
    if m.request in s.reservations then s.reservations[m.request].tenant else ""
  }

  /** What the advance does to one reservation. */
  lemma AdvancedReservation(s: Books, id: string, tenant: string, clock: Clock)
    requires Inv(s) && id in s.reservations && s.reservations[id].tenant == tenant && Advance(s, tenant, clock).Some?
    ensures var s1 := Advance(s, tenant, clock).value;
      var r, w, w1 := s.reservations[id], TenantOf(s, tenant).window, TenantOf(s1, tenant).window;
      && id in s1.reservations && tenant in s1.tenants && Sound(r, w1) && Sound(s1.reservations[id], w1)
      && s1.reservations[id] == if w1 != w then Rolled(r, tenant, w) else r
  {
    assert Kept(s, id);
    var s1, w := Advance(s, tenant, clock).value, s.tenants[tenant].window;
    if s1 != s {
      RolledSound(s.reservations[id], tenant, w, clock(s.tenants[tenant].period).value);
    }
  }

  lemma StoreFollows(s: Books, m: Message, base: Reservation, r: Reservation, t: Tenant, lost: int)
    requires Inv(s) && m.request in s.reservations && base.tenant in s.tenants
    requires s.reservations[m.request] == base.(guard := base.guard + lost)
    requires InStep(base, s.tenants[base.tenant], r, t) && Sound(r, t.window)
    ensures Follows(s, Store(s, m, r, t), base.tenant, lost)
  {
    var s' := Store(s, m, r, t);
    var t' := s'.tenants[base.tenant];
    PutInv(s, s', m.request, t');
    forall a, tenant
      ensures Drift(s', a, tenant) == Drift(s, a, tenant) + if a == Held && tenant == base.tenant then lost else 0
    {
      PutDrift(s, s', m.request, base, t', a, tenant);
    }
  }

  /** The step of a message the ledger acts on: base is what it acts on, and is without the guard lost. */
  lemma ChangeFollows(rules: Rules, s: Books, m: Message, clock: Clock, s1: Books, base: Reservation, c: Change, lost: int)
    requires Good(s) && m.request in s.reservations && Advance(s, OwnerOf(s, m), clock) == Some(s1)
    requires base.tenant == OwnerOf(s, m) && Sound(base, TenantOf(s1, base.tenant).window)
    requires m.request in s1.reservations && s1.reservations[m.request] == base.(guard := base.guard + lost)
    requires base.tenant in s1.tenants && c == Act(rules, base, s1.tenants[base.tenant], m) && c.Changed?
    ensures Follows(s, Store(s1, m, c.res, c.tenant), base.tenant, lost)
  {
    AdvanceFollows(s, base.tenant, clock);
    ActInStep(rules, base, s1.tenants[base.tenant], m);
    StoreFollows(s1, m, base, c.res, c.tenant, lost);
    FollowsTrans(s, s1, Store(s1, m, c.res, c.tenant), base.tenant, lost);
  }

  /** What a message that is acted on leaves, and what of it is lost. */
  lemma HandleFollows(rules: Rules, s: Books, m: Message, clock: Clock, reread: bool)
    requires Good(s)
    ensures Follows(s, Handle(rules, s, m, clock, reread).0, OwnerOf(s, m), Lost(rules, s, m, clock, reread))
  {
    var s', lost := Handle(rules, s, m, clock, reread).0, Lost(rules, s, m, clock, reread);
    if Handle(rules, s, m, clock, reread).1.Accepted? {
      var s1, base, c := AcceptedParts(rules, s, m, clock, reread);
      ChangeFollows(rules, s, m, clock, s1, base, c, lost);
      assert s' == Store(s1, m, c.res, c.tenant);
    } else {
      UnacceptedParts(rules, s, m, clock, reread);
      if s' != s {
        AdvanceFollows(s, OwnerOf(s, m), clock);
      }
    }
  }

  lemma UnacceptedParts(rules: Rules, s: Books, m: Message, clock: Clock, reread: bool)
    requires !Handle(rules, s, m, clock, reread).1.Accepted?
    ensures Handle(rules, s, m, clock, reread).0 == s
            || Some(Handle(rules, s, m, clock, reread).0) == Advance(s, OwnerOf(s, m), clock)
    ensures Lost(rules, s, m, clock, reread) == 0
  {
  }

  lemma AcceptedParts(rules: Rules, s: Books, m: Message, clock: Clock, reread: bool)
    returns (s1: Books, base: Reservation, c: Change)
    requires Inv(s) && Handle(rules, s, m, clock, reread).1.Accepted?
    ensures Admissible(s, m) && Advance(s, OwnerOf(s, m), clock) == Some(s1)
    ensures base.tenant == OwnerOf(s, m) && base.tenant in s1.tenants && Sound(base, s1.tenants[base.tenant].window)
    ensures c == Act(rules, base, s1.tenants[base.tenant], m) && c.Changed?
    ensures Handle(rules, s, m, clock, reread).0 == Store(s1, m, c.res, c.tenant)
    ensures Lost(rules, s, m, clock, reread) != 0 ==>
              base == s.reservations[m.request] && base.enforcement != s1.tenants[base.tenant].window
    ensures m.request in s1.reservations
    ensures s1.reservations[m.request] == base.(guard := base.guard + Lost(rules, s, m, clock, reread))
  {
    var r := s.reservations[m.request];
    s1 := Advance(s, r.tenant, clock).value;
    AdvancedReservation(s, m.request, r.tenant, clock);
    base := if reread then s1.reservations[m.request] else r;
    c := Act(rules, base, TenantOf(s1, r.tenant), m);
    LostIs(rules, s, m, clock, reread);
  }

  lemma LostIs(rules: Rules, s: Books, m: Message, clock: Clock, reread: bool)
    requires Inv(s) && Admissible(s, m) && Handle(rules, s, m, clock, reread).1.Accepted?
    requires Advance(s, OwnerOf(s, m), clock).Some? && m.request in Advance(s, OwnerOf(s, m), clock).value.reservations
    ensures Lost(rules, s, m, clock, reread)
         == if reread then 0
            else Advance(s, OwnerOf(s, m), clock).value.reservations[m.request].guard - s.reservations[m.request].guard
  {
    AdvancedReservation(s, m.request, OwnerOf(s, m), clock);
  }

  lemma FollowsTrans(s: Books, s1: Books, s2: Books, who: string, lost: int)
    requires Follows(s, s1, who, 0) && Follows(s1, s2, who, lost)
    ensures Follows(s, s2, who, lost)
  {
    forall a, tenant
      ensures Drift(s2, a, tenant) == Drift(s, a, tenant) + if a == Held && tenant == who then lost else 0
    {
      assert Drift(s1, a, tenant) == Drift(s, a, tenant);
    }
  }

  /** A tenant's totals stay; its window may only begin. */
  lemma RetenantFollows(s: Books, s': Books, tenant: string, t': Tenant)
    requires Inv(s) && s'.reservations == s.reservations && s'.adjustments == s.adjustments
    requires s'.tenants == s.tenants[tenant := t'] && forall a :: Balance(a, t') == Balance(a, TenantOf(s, tenant))
    requires t'.window == TenantOf(s, tenant).window || TenantOf(s, tenant).window.None?
    ensures Follows(s, s', tenant, 0)
  {
    var t := TenantOf(s, tenant);
    assert t.window.None? ==> Blank(t);
    assert Balance(Held, t') == t.reserved && Balance(SettledHere, t') == t.settled;
    assert Balance(Debt, t') == t.carried && Balance(Credit, t') == t.credit;
    forall id | id in s'.reservations ensures Kept(s', id) {
      assert Kept(s, id);
    }
    forall a, x ensures Drift(s', a, x) == Drift(s, a, x) {
      if x == tenant && t'.window != t.window {
        NoEntries(s, a, tenant, t.window);
        NoEntries(s, a, tenant, t'.window);
      }
    }
  }

  lemma FollowsGood(s: Books, s': Books, who: string, lost: int)
    requires Good(s) && Follows(s, s', who, lost)
    ensures Good(s')
  {
    forall a, tenant | a != Held ensures Drift(s', a, tenant) == 0 {
      assert Drift(s, a, tenant) == 0;
    }
  }

  lemma BindFollows(s: Books, tenant: string, p: Policy, w: Window)
    requires Good(s) && Bind(s, tenant, p, w).Some?
    ensures Follows(s, Bind(s, tenant, p, w).value, tenant, 0)
    ensures TenantOf(Bind(s, tenant, p, w).value, tenant).window == Some(w)
    ensures tenant in Bind(s, tenant, p, w).value.tenants
    ensures Bind(s, tenant, p, w).value.reservations.Keys == s.reservations.Keys
  {
    var t := TenantOf(s, tenant);
    var s0 := s.(tenants := s.tenants[tenant := t]);
    RetenantFollows(s, s0, tenant, t);
    FollowsGood(s, s0, tenant, 0);
    var s1 := if t.window.Some? && t.window != Some(w) then RollOver(s0, tenant, w) else s0;
    if s1 != s0 {
      RollOverFollows(s0, tenant, w);
      FollowsGood(s0, s1, tenant, 0);
    }
    FollowsTrans(s, s0, s1, tenant, 0);
    var s2 := Bind(s, tenant, p, w).value;
    RetenantFollows(s1, s2, tenant, s2.tenants[tenant]);
    FollowsTrans(s, s1, s2, tenant, 0);
  }

  lemma HoldFollows(s: Books, a: Admission, o: Offer)
    requires Inv(s) && a.request !in s.reservations && a.caller.tenant in s.tenants
    requires s.tenants[a.caller.tenant].window.Some?
    ensures Follows(s, Hold(s, a, o), a.caller.tenant, 0)
  {
    var s' := Hold(s, a, o);
    PutInv(s, s', a.request, s'.tenants[a.caller.tenant]);
    forall b, x ensures Drift(s', b, x) == Drift(s, b, x) {
      SumPut(s.reservations, a.request, s'.reservations[a.request], Entry(b, x, TenantOf(s, x).window));
    }
  }

  lemma AdmitFollows(s: Books, a: Admission, clock: Clock)
    requires Good(s)
    ensures Follows(s, Admit(s, a, clock).0, a.caller.tenant, 0)
  {
    if Admit(s, a, clock).0 != s {
      var tenant, w := a.caller.tenant, clock(a.policy.period).value;
      var s1 := Bind(s, tenant, a.policy, w).value;
      BindFollows(s, tenant, a.policy, w);
      if Decide(s1, a).0 != s1 {
        HoldFollows(s1, a, Decide(s1, a).1.offer);
        FollowsTrans(s, s1, Decide(s1, a).0, tenant, 0);
      }
    }
  }

  lemma ExpireFollows(rules: Rules, s: Books, id: string, at: int)
    requires Inv(s)
    ensures Follows(s, Expire(rules, s, id, at), "", 0)
  {
    var s' := Expire(rules, s, id, at);
    if s' != s {
      assert Kept(s, id);
      var r := s.reservations[id];
      var t' := TenantOf(s', r.tenant);
      assert s.tenants == s.tenants[r.tenant := s.tenants[r.tenant]];
      PutInv(s, s', id, t');
      forall a, x ensures Drift(s', a, x) == Drift(s, a, x) {
        PutDrift(s, s', id, r, t', a, x);
      }
    }
  }

  lemma AdjustFollows(s: Books, a: Adjustment, authorised: bool, clock: Clock)
    requires Good(s)
    ensures Follows(s, Adjust(s, a, authorised, clock).0, a.tenant, 0)
  {
    var s' := Adjust(s, a, authorised, clock).0;
    if s' != s {
      var s1 := Advance(s, a.tenant, clock).value;
      AdvanceFollows(s, a.tenant, clock);
      if s' != s1 {
        forall id | id in s'.reservations ensures Kept(s', id) {
          assert Kept(s1, id);
        }
        forall b, x ensures Drift(s', b, x) == Drift(s1, b, x) {
          SumPut(s1.adjustments, a.id, a, Payment(x));
        }
        FollowsTrans(s, s1, s', a.tenant, 0);
      }
    }
  }

  lemma LookedFollows(s: Books, tenant: string, clock: Clock)
    requires Good(s)
    ensures Follows(s, Looked(s, tenant, clock), tenant, 0)
  {
    var s1 := if Advance(s, tenant, clock).Some? then Advance(s, tenant, clock).value else s;
    if Advance(s, tenant, clock).Some? { AdvanceFollows(s, tenant, clock); }
    RetenantFollows(s1, Looked(s, tenant, clock), tenant, TenantOf(s1, tenant));
    FollowsTrans(s, s1, Looked(s, tenant, clock), tenant, 0);
  }

  // ---------- histories ----------

  datatype Op =
    | Receiving(m: Message) | Admitting(a: Admission) | Expiring(id: string, at: int)
    | Adjusting(adjustment: Adjustment, authorised: bool) | Looking(tenant: string)

  /** A call of the ledger and the clock it reads. */
  datatype Tick = Tick(op: Op, clock: Clock)

  ghost function Next(rules: Rules, s: Books, k: Tick, reread: bool): Books {
    match k.op
    case Receiving(m) => Handle(rules, s, m, k.clock, reread).0
    case Admitting(a) => Admit(s, a, k.clock).0
    case Expiring(id, at) => Expire(rules, s, id, at)
    case Adjusting(a, authorised) => Adjust(s, a, authorised, k.clock).0
    case Looking(tenant) => Looked(s, tenant, k.clock)
  }

  ghost function After(rules: Rules, ks: seq<Tick>, reread: bool): Books {
    if ks == [] then NO_BOOKS else Next(rules, After(rules, ks[..|ks| - 1], reread), ks[|ks| - 1], reread)
  }

  ghost function LostAt(rules: Rules, s: Books, k: Tick, reread: bool, tenant: string): int {
    if k.op.Receiving? && OwnerOf(s, k.op.m) == tenant then Lost(rules, s, k.op.m, k.clock, reread) else 0
  }

  /** The guards of a tenant that stale reservations overwrote. */
  ghost function LostBy(rules: Rules, ks: seq<Tick>, reread: bool, tenant: string): int {
    if ks == [] then 0
    else LostBy(rules, ks[..|ks| - 1], reread, tenant)
         + LostAt(rules, After(rules, ks[..|ks| - 1], reread), ks[|ks| - 1], reread, tenant)
  }

  lemma NextFollows(rules: Rules, s: Books, k: Tick, reread: bool) returns (who: string)
    requires Good(s)
    ensures forall x :: LostAt(rules, s, k, reread, x) == if x == who then LostAt(rules, s, k, reread, who) else 0
    ensures Follows(s, Next(rules, s, k, reread), who, LostAt(rules, s, k, reread, who))
  {
    match k.op
    case Receiving(m) => who := OwnerOf(s, m); HandleFollows(rules, s, m, k.clock, reread);
    case Admitting(a) => who := a.caller.tenant; AdmitFollows(s, a, k.clock);
    case Expiring(id, at) => who := ""; ExpireFollows(rules, s, id, at);
    case Adjusting(a, authorised) => who := a.tenant; AdjustFollows(s, a, authorised, k.clock);
    case Looking(tenant) => who := tenant; LookedFollows(s, tenant, k.clock);
  }

  lemma LostNonNegative(rules: Rules, s: Books, k: Tick, reread: bool, tenant: string)
    requires Inv(s)
    ensures LostAt(rules, s, k, reread, tenant) >= 0
  {
    if k.op.Receiving? && k.op.m.request in s.reservations {
      assert Kept(s, k.op.m.request);
    }
  }

  /**
   Over every history the settled, debt and credit totals of a tenant are the sums of its reservations' entries. Its
   reserved total is the sum of the holds and guards plus the guards that stale reservations overwrote; reading the
   reservation again after the advance loses none.
   */
  lemma {:induction false} AccountsKept(rules: Rules, ks: seq<Tick>, reread: bool, tenant: string)
    ensures Good(After(rules, ks, reread))
    ensures Drift(After(rules, ks, reread), Held, tenant) == LostBy(rules, ks, reread, tenant) >= 0
    ensures reread ==> LostBy(rules, ks, reread, tenant) == 0
  {
    if ks == [] {
      forall a, x ensures Drift(NO_BOOKS, a, x) == 0 {
      }
    } else {
      var s, k := After(rules, ks[..|ks| - 1], reread), ks[|ks| - 1];
      AccountsKept(rules, ks[..|ks| - 1], reread, tenant);
      LostNonNegative(rules, s, k, reread, tenant);
      var who := NextFollows(rules, s, k, reread);
      FollowsGood(s, Next(rules, s, k, reread), who, LostAt(rules, s, k, reread, who));
    }
  }

  lemma RunGood(rules: Rules, ks: seq<Tick>, reread: bool)
    ensures Good(After(rules, ks, reread))
  {
    AccountsKept(rules, ks, reread, "");
  }
}
