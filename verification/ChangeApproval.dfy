/**
 The admission webhooks of GOV-AR approvals (operateur/internal/webhook/changeapproval/handler.go) in
 front of the CEL rules: mutation, then the rules, then validation, for every write to one object.
 */
module ChangeApproval {
  import opened Approval
  import opened Wrappers

  /** The authenticated side of an admission request. */
  datatype User = User(username: string, groups: set<string>)

  /** A write to the object: the submitted version, who submits it, and the clock of each webhook. */
  datatype Write = Write(next: ChangeRequest, user: User, uid: string, mutatedAt: int, validatedAt: int)

  predicate ProposalIsValid(h: Digest, c: ChangeRequest) {
    && c.name != "" && c.namespace != "" && c.spec.scope.Some?
    && TrimSpace(c.spec.requestedBy) != ""
    && c.spec.scope.value.scopeDigest != ""
    && c.spec.scope.value.scopeDigest == ScopeDigest(h, c.spec.scope.value)
    && c.spec.proposalDigest != ""
    && c.spec.proposalDigest == ProposalDigest(h, c.spec, c.namespace, c.name)
  }

  predicate ProposalUnchanged(h: Digest, old_: ChangeRequest, next: ChangeRequest) {
    && old_.namespace == next.namespace && old_.name == next.name && old_.uid == next.uid
    && old_.spec.requestedBy == next.spec.requestedBy && old_.spec.proposalDigest == next.spec.proposalDigest
    && old_.spec.proposalDigest == ProposalDigest(h, old_.spec, old_.namespace, old_.name)
    && next.spec.proposalDigest == ProposalDigest(h, next.spec, next.namespace, next.name)
  }

  function Seconds(nanoseconds: int): int {
    nanoseconds / SECOND
  }

  /** MutationHandler.Handle on a create: stamps the requester and the proposal digest, or denies. */
  function MutateCreate(h: Digest, w: Write): Option<ChangeRequest> {
    var c, username := w.next, TrimSpace(w.user.username);
    if c.spec.terms.action != AuthorizeRoute then Some(c)
    else if username == "" || c.name == "" || c.namespace == "" || c.spec.scope == None then None
    else if c.spec.approval != Pending || c.spec.decision.Some? then None
    else if c.spec.requestedBy != "" && c.spec.requestedBy != username then None
    else
      var stamped := c.spec.(requestedBy := username, approval := Pending);
      Some(c.(spec := stamped.(proposalDigest := ProposalDigest(h, stamped, c.namespace, c.name))))
  }

  /** MutationHandler.Handle on an update: stamps the decision of a transition out of Pending, or denies. */
  function MutateUpdate(h: Digest, old_: ChangeRequest, w: Write): Option<ChangeRequest> {
    var next, username := w.next, TrimSpace(w.user.username);
    var oldRoute, newRoute := old_.spec.terms.action == AuthorizeRoute, next.spec.terms.action == AuthorizeRoute;
    if !oldRoute && !newRoute then Some(next)
    else if !oldRoute || !newRoute then None
    else if username == "" || !ProposalIsValid(h, old_) || !ProposalUnchanged(h, old_, next) then None
    else if old_.spec.approval != Pending then (if old_.spec == next.spec then Some(next) else None)
    else if next.spec.approval == Pending then (if next.spec.decision.Some? then None else Some(next))
    else if next.spec.decision.Some? || username == old_.spec.requestedBy then None
    else if REVIEWER_GROUP !in w.user.groups || old_.uid == "" || w.uid == "" then None
    else if w.mutatedAt >= old_.spec.scope.value.validUntil * SECOND then None
    else
      var d := Stamped(h, old_, next.spec.approval, username, w.uid, Seconds(w.mutatedAt));
      Some(next.(spec := next.spec.(decision := Some(d))))
  }

  /** ValidationHandler.Handle on a create. */
  predicate ValidateCreate(h: Digest, c: ChangeRequest, w: Write) {
    var username := TrimSpace(w.user.username);
    c.spec.terms.action == AuthorizeRoute ==>
      && username != "" && c.spec.approval == Pending && c.spec.decision == None
      && c.spec.requestedBy == username && ProposalIsValid(h, c)
  }

  /** validTransitionDecision: the evidence of one transition, against the authenticated request. */
  predicate TransitionIsValid(h: Digest, old_: ChangeRequest, next: ChangeRequest, w: Write)
    requires old_.spec.scope.Some?
  {
    && next.spec.decision.Some? && next.spec.approval != Pending
    && var d, scope := next.spec.decision.value, old_.spec.scope.value;
    && d.outcome == next.spec.approval
    && d.reviewerIdentity == w.user.username && d.reviewerIdentity != old_.spec.requestedBy
    && d.reviewerGroup == REVIEWER_GROUP
    && d.requestUID == old_.uid && d.admissionUID == w.uid
    && d.proposalDigest == old_.spec.proposalDigest
    && d.scopeDigest == scope.scopeDigest && d.validUntil == scope.validUntil
    && d.decisionDigest == DecisionDigest(h, d, old_.namespace, old_.name, old_.spec.requestedBy)
    && d.decidedAt * SECOND >= w.validatedAt - 30 * SECOND
    && InForce(d, w.validatedAt)
  }

  /** ValidationHandler.Handle on an update. */
  predicate ValidateUpdate(h: Digest, old_: ChangeRequest, next: ChangeRequest, w: Write) {
    var username := TrimSpace(w.user.username);
    var oldRoute, newRoute := old_.spec.terms.action == AuthorizeRoute, next.spec.terms.action == AuthorizeRoute;
    (oldRoute || newRoute) ==>
      && oldRoute && newRoute
      && username != "" && ProposalIsValid(h, old_) && ProposalUnchanged(h, old_, next)
      && (if old_.spec.approval != Pending then old_.spec == next.spec
          else if next.spec.approval == Pending then next.spec.decision == None
          else && username != old_.spec.requestedBy && REVIEWER_GROUP in w.user.groups
               && TransitionIsValid(h, old_, next, w))
  }

  /** The whole admission of a create; None is a denial. The API server keeps the assigned UID. */
  function AdmitCreate(h: Digest, w: Write): Option<ChangeRequest> {
    var m := MutateCreate(h, w);
    if m.Some? && WellFormedSpec(m.value.spec) && ValidateCreate(h, m.value, w) then m else None
  }

  /** The whole admission of an update. */
  function AdmitUpdate(h: Digest, old_: ChangeRequest, w: Write): Option<ChangeRequest> {
    var m := MutateUpdate(h, old_, w);
    if m.Some? && Step(old_, m.value) && ValidateUpdate(h, old_, m.value, w) then m else None
  }

  // ---------- histories ----------

  /** The versions of one GOV-AR object, from its creation, and the write behind each of them. */
  ghost predicate History(h: Digest, ws: seq<Write>, r: seq<ChangeRequest>) {
    && |ws| == |r| > 0
    && AdmitCreate(h, ws[0]) == Some(r[0])
    && r[0].spec.terms.action == AuthorizeRoute
    && forall i | 0 <= i < |r| - 1 :: AdmitUpdate(h, r[i], ws[i + 1]) == Some(r[i + 1])
  }

  /** The requester is the authenticated creator, and the proposal is what its digest says. */
  predicate Proposed(h: Digest, creator: User, c: ChangeRequest) {
    && c.spec.terms.action == AuthorizeRoute
    && c.spec.requestedBy == TrimSpace(creator.username)
    && ProposalIsValid(h, c)
  }

  /** The decision was stamped by this write: its user is a reviewer and not the requester. */
  predicate DecidedBy(h: Digest, c: ChangeRequest, w: Write) {
    && c.spec.approval != Pending && c.spec.scope.Some?
    && w.user.username == TrimSpace(w.user.username) != ""
    && w.user.username != c.spec.requestedBy
    && REVIEWER_GROUP in w.user.groups
    && c.uid != "" && w.uid != ""
    && c.spec.decision == Some(Stamped(h, c, c.spec.approval, w.user.username, w.uid, Seconds(w.mutatedAt)))
    && InForce(c.spec.decision.value, w.validatedAt)
  }

  lemma CreateProposes(h: Digest, w: Write, c: ChangeRequest)
    requires AdmitCreate(h, w) == Some(c) && c.spec.terms.action == AuthorizeRoute
    ensures Proposed(h, w.user, c) && c.spec.approval == Pending && c.spec.decision == None
  {
  }

  /** An admitted update of a proposal keeps it, and either changes no outcome or is a reviewer's decision. */
  lemma UpdateDecides(h: Digest, creator: User, c: ChangeRequest, w: Write, c': ChangeRequest)
    requires CollisionFree(h) && Proposed(h, creator, c)
    requires c.spec.approval == Pending ==> c.spec.decision == None
    requires AdmitUpdate(h, c, w) == Some(c')
    ensures Proposed(h, creator, c') && SameProposal(c.spec, c'.spec)
    ensures c'.uid == c.uid && c'.namespace == c.namespace && c'.name == c.name
    ensures c.spec.approval != Pending ==> c'.spec == c.spec
    ensures c.spec.approval == Pending && c'.spec.approval == Pending ==> c'.spec.decision == None
    ensures c.spec.approval == Pending && c'.spec.approval != Pending ==> DecidedBy(h, c', w)
  {
    var x := ProposalPayload(c.namespace, c.name, c.spec.terms, c.spec.scope, c.spec.requestedBy);
    var y := ProposalPayload(c'.namespace, c'.name, c'.spec.terms, c'.spec.scope, c'.spec.requestedBy);
    assert h(x) == h(y);
    if c.spec.approval == Pending && c'.spec.approval != Pending {
      TrimSpaceIdempotent(w.user.username);
    }
  }

  // ---------- what is admitted ----------

  predicate SameObject(c: ChangeRequest, c': ChangeRequest) {
    c'.uid == c.uid && c'.namespace == c.namespace && c'.name == c.name
  }

  /** The times of a decision: before the expiry, and validated from five seconds before to thirty seconds after it. */
  predicate InTime(validUntil: int, mutatedAt: int, validatedAt: int) {
    var decidedAt := Seconds(mutatedAt);
    && mutatedAt < validUntil * SECOND && decidedAt != 0
    && (decidedAt - 5) * SECOND <= validatedAt <= (decidedAt + 30) * SECOND && validatedAt < validUntil * SECOND
  }

  /** A reviewer other than the requester sets the outcome, and nothing else, in time. */
  predicate ReviewsInTime(c: ChangeRequest, w: Write) {
    && w.next.spec == c.spec.(approval := w.next.spec.approval) && w.next.spec.approval in {Approved, Rejected}
    && TrimSpace(w.user.username) == w.user.username != c.spec.requestedBy && REVIEWER_GROUP in w.user.groups
    && c.uid != "" && w.uid != ""
    && c.spec.scope.Some? && InTime(c.spec.scope.value.validUntil, w.mutatedAt, w.validatedAt)
  }

  /** The object with the outcome and the decision of its reviewer. */
  function Reviewed(h: Digest, c: ChangeRequest, w: Write): ChangeRequest
    requires c.spec.scope.Some?
  {
    Decide(c, Stamped(h, c, w.next.spec.approval, w.user.username, w.uid, Seconds(w.mutatedAt)))
  }

  lemma SpecsAgree(h: Digest, c: ChangeRequest, c': ChangeRequest)
    requires CollisionFree(h) && ProposalUnchanged(h, c, c')
    ensures SameObject(c, c') && SameProposal(c.spec, c'.spec)
    ensures c'.spec == c.spec.(approval := c'.spec.approval, decision := c'.spec.decision)
  {
    var x := ProposalPayload(c.namespace, c.name, c.spec.terms, c.spec.scope, c.spec.requestedBy);
    var y := ProposalPayload(c'.namespace, c'.name, c'.spec.terms, c'.spec.scope, c'.spec.requestedBy);
    assert h(x) == h(y);
  }

  lemma SecondsBefore(nanoseconds: int, end: int)
    requires nanoseconds < end * SECOND
    ensures Seconds(nanoseconds) < end
  {
  }

  /** The other way: such a write is stamped, passes the rules and the validation, and what it leaves validates. */
  lemma ReviewAdmitted(h: Digest, c: ChangeRequest, w: Write)
    requires c.spec.terms.action == AuthorizeRoute && ProposalIsValid(h, c) && c.spec.approval == Pending
    requires c.spec.decision == None && TrimSpace(w.user.username) != "" && SameObject(c, w.next) && ReviewsInTime(c, w)
    ensures AdmitUpdate(h, c, w) == Some(Reviewed(h, c, w))
    ensures ValidateDecision(h, Reviewed(h, c, w), w.validatedAt) == Valid
  {
    var scope := c.spec.scope.value;
    SecondsBefore(w.mutatedAt, scope.validUntil);
    var d := Stamped(h, c, w.next.spec.approval, w.user.username, w.uid, Seconds(w.mutatedAt));
    assert d.(decisionDigest := "").(decisionDigest := "") == d.(decisionDigest := "");
    assert ProposalUnchanged(h, c, w.next);
    assert MutateUpdate(h, c, w) == Some(Reviewed(h, c, w));
  }

  /**
   A write to a pending proposal is admitted exactly when a named user leaves the object as it is, or a reviewer other
   than the requester sets the outcome and nothing else, in time. The decision it is stamped with validates at once.
   */
  lemma PendingAdmitted(h: Digest, c: ChangeRequest, w: Write)
    requires CollisionFree(h) && c.spec.terms.action == AuthorizeRoute && ProposalIsValid(h, c)
    requires c.spec.approval == Pending && c.spec.decision == None
    ensures AdmitUpdate(h, c, w).Some? <==>
            && TrimSpace(w.user.username) != "" && SameObject(c, w.next)
            && (w.next.spec == c.spec || ReviewsInTime(c, w))
    ensures AdmitUpdate(h, c, w).Some? ==>
              && AdmitUpdate(h, c, w).value == (if w.next.spec == c.spec then c else Reviewed(h, c, w))
              && (w.next.spec != c.spec ==> ValidateDecision(h, Reviewed(h, c, w), w.validatedAt) == Valid)
  {
    if AdmitUpdate(h, c, w).Some? {
      SpecsAgree(h, c, w.next);
    }
    if TrimSpace(w.user.username) != "" && SameObject(c, w.next) {
      if w.next.spec == c.spec {
        assert w.next == c;
      } else if ReviewsInTime(c, w) {
        ReviewAdmitted(h, c, w);
      }
    }
  }

  /** A decided proposal takes only writes of a named user that change nothing. */
  lemma DecidedAdmitted(h: Digest, c: ChangeRequest, w: Write)
    requires c.spec.terms.action == AuthorizeRoute && ProposalIsValid(h, c) && WellFormedSpec(c.spec)
    requires c.spec.approval != Pending
    ensures AdmitUpdate(h, c, w) ==
            if TrimSpace(w.user.username) != "" && SameObject(c, w.next) && w.next.spec == c.spec then Some(c) else None
  {
    assert w.next.spec == c.spec && SameObject(c, w.next) ==> w.next == c;
  }

  /** A proposal is created by a named user, undecided, in nobody else's name and over a scope with its own digest. */
  lemma CreateAdmitted(h: Digest, w: Write)
    requires CollisionFree(h) && w.next.spec.terms.action == AuthorizeRoute
    ensures var c, username := w.next, TrimSpace(w.user.username);
      AdmitCreate(h, w).Some? <==>
      && username != "" && c.name != "" && c.namespace != "" && c.spec.approval == Pending && c.spec.decision == None
      && c.spec.requestedBy in {"", username}
      && c.spec.scope.Some? && c.spec.scope.value.scopeDigest == ScopeDigest(h, c.spec.scope.value)
    ensures AdmitCreate(h, w).Some? ==>
              var c := AdmitCreate(h, w).value;
              && Proposed(h, w.user, c) && SameObject(w.next, c)
              && c.spec == w.next.spec.(requestedBy := TrimSpace(w.user.username), proposalDigest := c.spec.proposalDigest)
  {
    TrimSpaceIdempotent(w.user.username);
  }

  /** The object at i was decided by the write k, was pending before it and has not changed since. */
  ghost predicate DecidedAt(h: Digest, ws: seq<Write>, r: seq<ChangeRequest>, i: nat, k: nat)
    requires |ws| == |r| && i < |r|
  {
    && 0 < k <= i && DecidedBy(h, r[i], ws[k])
    && (forall j | 0 <= j < k :: r[j].spec.approval == Pending)
    && (forall j | k <= j <= i :: r[j].spec == r[i].spec)
  }

  /** The identity and the proposal are as created; a pending object has no decision. */
  ghost predicate Undisturbed(h: Digest, ws: seq<Write>, r: seq<ChangeRequest>, i: nat)
    requires |ws| == |r| && i < |r|
  {
    && Proposed(h, ws[0].user, r[i]) && SameProposal(r[0].spec, r[i].spec)
    && r[i].uid == r[0].uid && r[i].namespace == r[0].namespace && r[i].name == r[0].name
    && (r[i].spec.approval == Pending ==> r[i].spec.decision == None)
  }

  lemma {:induction false} HistoryUndisturbed(h: Digest, ws: seq<Write>, r: seq<ChangeRequest>, i: nat)
    requires CollisionFree(h) && History(h, ws, r) && i < |r|
    ensures Undisturbed(h, ws, r, i)
  {
    if i == 0 {
      CreateProposes(h, ws[0], r[0]);
    } else {
      HistoryUndisturbed(h, ws, r, i - 1);
      Advance(h, ws, r, i);
    }
  }

  lemma Advance(h: Digest, ws: seq<Write>, r: seq<ChangeRequest>, i: nat)
    requires CollisionFree(h) && History(h, ws, r) && 0 < i < |r| && Undisturbed(h, ws, r, i - 1)
    ensures Undisturbed(h, ws, r, i)
    ensures r[i - 1].spec.approval != Pending ==> r[i].spec == r[i - 1].spec
    ensures r[i - 1].spec.approval == Pending && r[i].spec.approval != Pending ==> DecidedBy(h, r[i], ws[i])
    ensures r[i].uid == r[i - 1].uid && r[i].namespace == r[i - 1].namespace && r[i].name == r[i - 1].name
  {
    assert AdmitUpdate(h, r[i - 1], ws[i - 1 + 1]) == Some(r[i - 1 + 1]);
    UpdateDecides(h, ws[0].user, r[i - 1], ws[i], r[i]);
  }

  /** A decided object was decided by one write of its history. */
  lemma {:induction false} HistoryDecides(h: Digest, ws: seq<Write>, r: seq<ChangeRequest>, i: nat)
    returns (k: nat)
    requires CollisionFree(h) && History(h, ws, r) && i < |r|
    ensures r[i].spec.approval == Pending ==> forall j | 0 <= j <= i :: r[j].spec.approval == Pending
    ensures r[i].spec.approval != Pending ==> DecidedAt(h, ws, r, i, k)
  {
    k := i;
    if i == 0 {
      CreateProposes(h, ws[0], r[0]);
    } else {
      k := HistoryDecides(h, ws, r, i - 1);
      HistoryUndisturbed(h, ws, r, i - 1);
      Advance(h, ws, r, i);
      if r[i - 1].spec.approval == Pending {
        k := i;
      }
    }
  }

  /**
   Two-person control over whole histories. Whatever writes were attempted, by whomever: an object that
   validates was decided by exactly one admitted write, whose authenticated user was in the reviewer
   group and was not the authenticated creator, on the proposal exactly as it was created; and once
   decided it validates at exactly the times its decision is in force.
   */
  lemma TwoPersonControl(h: Digest, ws: seq<Write>, r: seq<ChangeRequest>, i: nat, now: int)
    requires CollisionFree(h) && History(h, ws, r) && i < |r|
    ensures r[i].spec.approval != Pending <==> r[i].spec.decision.Some?
    ensures ValidateDecision(h, r[i], now) == Valid
        <==> r[i].spec.decision.Some? && InForce(r[i].spec.decision.value, now)
    ensures r[i].spec.decision.Some? ==>
              exists k :: 0 < k <= i
                && r[i].spec.decision.value.reviewerIdentity == ws[k].user.username
                && REVIEWER_GROUP in ws[k].user.groups
                && ws[k].user.username != TrimSpace(ws[0].user.username) == r[i].spec.requestedBy
                && SameProposal(r[0].spec, r[i].spec)
                && (forall j | 0 <= j < k :: r[j].spec.approval == Pending)
                && (forall j | k <= j <= i :: r[j].spec == r[i].spec)
  {
    HistoryUndisturbed(h, ws, r, i);
    var k := HistoryDecides(h, ws, r, i);
    if r[i].spec.approval != Pending {
      DecidedValidates(h, r[i], ws[k], now);
    }
  }

  lemma DecidedValidates(h: Digest, c: ChangeRequest, w: Write, now: int)
    requires DecidedBy(h, c, w) && c.spec.terms.action == AuthorizeRoute && ProposalIsValid(h, c)
    ensures ValidateDecision(h, c, now) == Valid <==> InForce(c.spec.decision.value, now)
  {
    var d := c.spec.decision.value;
    assert d.(decisionDigest := "").(decisionDigest := "") == d.(decisionDigest := "");
  }
}
