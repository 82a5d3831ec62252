/**
 The GOV-AR approval objects (operateur/api/v1alpha1/aichangerequest_types.go): the three digests, the
 CEL rules as the admissible updates, and the check every consumer of a decision runs.
 */
module Approval {
  import opened Wrappers

  datatype Action = Reroute | AuthorizeRoute

  /** spec.approval; the API server defaults an absent value to Pending. */
  datatype Outcome = Pending | Approved | Rejected

  datatype Reference = Reference(name: string, uid: string, generation: int)

  /** Stored times are whole seconds since the zero time; an empty string is an absent field. */
  datatype Scope = Scope(routingPolicy: Reference, model: Reference, provider: Reference,
                         routeSnapshotDigest: string, validUntil: int, scopeDigest: string)

  datatype Decision = Decision(outcome: Outcome, reviewerIdentity: string, reviewerGroup: string,
                               decidedAt: int, validUntil: int, requestUID: string, admissionUID: string,
                               proposalDigest: string, scopeDigest: string, decisionDigest: string)

  /** The fields a proposal is made of, apart from the scope and the requester. */
  datatype Terms = Terms(action: Action, sourceModel: string, targetModel: string, reason: string,
                         expectedSavingEUR: string, qualityScore: string, latencyImpact: string,
                         riskLevel: string, expiresAfter: string)

  datatype Spec = Spec(terms: Terms, scope: Option<Scope>, requestedBy: string, proposalDigest: string,
                       decision: Option<Decision>, approval: Outcome)

  datatype ChangeRequest = ChangeRequest(namespace: string, name: string, uid: string, spec: Spec)

  const REVIEWER_GROUP := "aiops.imperium.io:gov-ar-approval-reviewers"

  // ---------- digests ----------

  /** What a digest is taken over: one constructor for each domain-separation prefix. */
  datatype Payload =
    | ScopePayload(unsigned: Scope)
    | DecisionPayload(namespace: string, name: string, requestedBy: string, decision: Decision)
    | ProposalPayload(namespace: string, name: string, terms: Terms, scope: Option<Scope>, requestedBy: string)

  type Digest = Payload -> string

  /** SHA-256 over the JSON of the payload, taken as free of collisions. */
  ghost predicate CollisionFree(h: Digest) {
    && (forall x, y :: h(x) == h(y) ==> x == y)
    && (forall x :: h(x) != "")
  }

  function ScopeDigest(h: Digest, s: Scope): string {
    h(ScopePayload(s.(scopeDigest := "")))
  }

  function DecisionDigest(h: Digest, d: Decision, namespace: string, name: string, requestedBy: string): string {
    h(DecisionPayload(namespace, name, requestedBy, d.(decisionDigest := "")))
  }

  function ProposalDigest(h: Digest, s: Spec, namespace: string, name: string): string {
    h(ProposalPayload(namespace, name, s.terms, s.scope, s.requestedBy))
  }

  // ---------- white space ----------

  /** The characters unicode.IsSpace accepts. */
  predicate IsSpace(c: char) {
    || '\t' <= c <= '\r' || c == ' ' || c == '\U{85}' || c == '\U{A0}' || c == '\U{1680}'
    || '\U{2000}' <= c <= '\U{200A}' || c == '\U{2028}' || c == '\U{2029}' || c == '\U{202F}'
    || c == '\U{205F}' || c == '\U{3000}'
  }

  function TrimLeft(s: string): string {
    if s != "" && IsSpace(s[0]) then TrimLeft(s[1..]) else s
  }

  function TrimRight(s: string): string {
    if s != "" && IsSpace(s[|s| - 1]) then TrimRight(s[..|s| - 1]) else s
  }

  function TrimSpace(s: string): string {
    TrimRight(TrimLeft(s))
  }

  lemma {:induction false} TrimRightKeepsFirst(s: string)
    requires s != "" && !IsSpace(s[0])
    ensures TrimRight(s) != "" && TrimRight(s)[0] == s[0]
  {
    if IsSpace(s[|s| - 1]) {
      TrimRightKeepsFirst(s[..|s| - 1]);
    }
  }

  lemma {:induction false} TrimLeftFirst(s: string)
    ensures TrimLeft(s) == "" || !IsSpace(TrimLeft(s)[0])
  {
    if s != "" && IsSpace(s[0]) {
      TrimLeftFirst(s[1..]);
    }
  }

  lemma {:induction false} TrimRightLast(s: string)
    ensures TrimRight(s) == "" || !IsSpace(TrimRight(s)[|TrimRight(s)| - 1])
  {
    if s != "" && IsSpace(s[|s| - 1]) {
      TrimRightLast(s[..|s| - 1]);
    }
  }

  /** Trimming twice is trimming once. */
  lemma TrimSpaceIdempotent(s: string)
    ensures TrimSpace(TrimSpace(s)) == TrimSpace(s)
  {
    TrimLeftFirst(s);
    if TrimLeft(s) != "" {
      TrimRightKeepsFirst(TrimLeft(s));
      TrimRightLast(TrimLeft(s));
    }
  }

  // ---------- the validator ----------

  const SECOND := 1_000_000_000

  datatype Verdict =
    | Valid | ScopeAbsent | ProposalInvalid | DecisionInconsistent | ReviewersNotDistinct
    | BindingInvalid | DigestInvalid | TimeInvalid

  /** The times, in nanoseconds, at which a decision is in force. */
  predicate InForce(d: Decision, now: int) {
    && d.decidedAt != 0
    && d.decidedAt * SECOND <= now + 5 * SECOND
    && d.decidedAt < d.validUntil
    && now < d.validUntil * SECOND
  }

  /** ValidateGOVARDecision: the first check that fails, in the order of the source. */
  function ValidateDecision(h: Digest, c: ChangeRequest, now: int): Verdict {
    if c.spec.terms.action != AuthorizeRoute || c.spec.scope == None then ScopeAbsent
    else if TrimSpace(c.spec.requestedBy) == ""
            || c.spec.proposalDigest != ProposalDigest(h, c.spec, c.namespace, c.name) then ProposalInvalid
    else if c.spec.decision == None then DecisionInconsistent
    else
      var scope, d := c.spec.scope.value, c.spec.decision.value;
      if d.outcome != c.spec.approval || d.outcome == Pending then DecisionInconsistent
      else if TrimSpace(d.reviewerIdentity) == "" || d.reviewerIdentity == c.spec.requestedBy
              || d.reviewerGroup != REVIEWER_GROUP then ReviewersNotDistinct
      else if c.uid == "" || d.requestUID != c.uid || d.admissionUID == ""
              || d.proposalDigest != c.spec.proposalDigest || d.scopeDigest != scope.scopeDigest
              || d.validUntil != scope.validUntil then BindingInvalid
      else if d.decisionDigest != DecisionDigest(h, d, c.namespace, c.name, c.spec.requestedBy) then DigestInvalid
      else if !InForce(d, now) then TimeInvalid
      else Valid
  }

  // ---------- the CEL rules ----------

  /** The rules on one object. */
  predicate WellFormedSpec(s: Spec) {
    && (s.terms.action == Reroute ==> s.terms.sourceModel != "" && s.terms.targetModel != "")
    && (s.terms.action == AuthorizeRoute ==>
          && s.scope.Some?
          && (s.approval == Pending ==> s.decision == None)
          && (s.approval != Pending ==>
                || (s.requestedBy == "" && s.proposalDigest == "" && s.decision == None)
                || (&& s.requestedBy != "" && s.proposalDigest != "" && s.decision.Some?
                    && s.decision.value.outcome == s.approval
                    && s.decision.value.proposalDigest == s.proposalDigest
                    && s.decision.value.scopeDigest == s.scope.value.scopeDigest
                    && s.decision.value.validUntil == s.scope.value.validUntil
                    && s.decision.value.reviewerIdentity != s.requestedBy)))
  }

  /** The rules that mention the old object. */
  predicate AllowedUpdate(old_: Spec, new_: Spec) {
    && new_.terms.action == old_.terms.action
    && (old_.scope.Some? ==> new_.scope == old_.scope)
    && (old_.requestedBy != "" ==> new_.requestedBy == old_.requestedBy)
    && (old_.proposalDigest != "" ==> new_.proposalDigest == old_.proposalDigest)
    && (old_.decision.Some? ==> new_.decision == old_.decision)
    && (old_.approval != Pending ==> new_.approval == old_.approval)
  }

  /** An update of the object the API server admits under the rules alone. */
  predicate Step(c: ChangeRequest, c': ChangeRequest) {
    && c'.namespace == c.namespace && c'.name == c.name && c'.uid == c.uid
    && WellFormedSpec(c'.spec) && AllowedUpdate(c.spec, c'.spec)
  }

  /** The successive versions of one object. */
  ghost predicate Run(r: seq<ChangeRequest>) {
    && r != [] && WellFormedSpec(r[0].spec)
    && forall i | 0 <= i < |r| - 1 :: Step(r[i], r[i + 1])
  }

  // ---------- what runs keep ----------

  /** Whatever was set stays as it was, between any two points of a run. */
  lemma {:induction false} RunKeeps(r: seq<ChangeRequest>, i: nat, j: nat)
    requires Run(r) && i <= j < |r|
    ensures AllowedUpdate(r[i].spec, r[j].spec)
    ensures r[j].namespace == r[i].namespace && r[j].name == r[i].name && r[j].uid == r[i].uid
    decreases j
  {
    if i < j {
      RunKeeps(r, i, j - 1);
      assert Step(r[j - 1], r[j - 1 + 1]);
    }
  }

  /** How often the approval changes along a run. */
  function ApprovalChanges(r: seq<ChangeRequest>): nat {
    if |r| < 2 then 0
    else (if r[0].spec.approval != r[1].spec.approval then 1 else 0) + ApprovalChanges(r[1..])
  }

  lemma TailRuns(r: seq<ChangeRequest>)
    requires Run(r) && |r| >= 2
    ensures Run(r[1..])
  {
    assert Step(r[0], r[0 + 1]);
    forall i | 0 <= i < |r[1..]| - 1 ensures Step(r[1..][i], r[1..][i + 1]) {
      assert Step(r[i + 1], r[i + 1 + 1]);
    }
  }

  /** The approval changes at most once, and only from Pending. */
  lemma {:induction false} ApprovalChangesOnce(r: seq<ChangeRequest>)
    requires Run(r)
    ensures ApprovalChanges(r) <= if r[0].spec.approval == Pending then 1 else 0
  {
    if |r| >= 2 {
      TailRuns(r);
      assert Step(r[0], r[0 + 1]);
      ApprovalChangesOnce(r[1..]);
    }
  }

  /** All proposal semantics of an object: what its proposal digest covers. */
  predicate SameProposal(a: Spec, b: Spec) {
    a.terms == b.terms && a.scope == b.scope && a.requestedBy == b.requestedBy
  }

  /**
   Once a decision validates, at any later point of any run it validates exactly when every proposal
   field is as it was and the clock is inside the decision's window.
   */
  lemma DecisionStaysBound(h: Digest, r: seq<ChangeRequest>, i: nat, j: nat, now: int, later: int)
    requires CollisionFree(h) && Run(r) && i <= j < |r|
    requires ValidateDecision(h, r[i], now) == Valid
    ensures r[j].spec.decision == r[i].spec.decision && r[j].spec.approval == r[i].spec.approval
    ensures ValidateDecision(h, r[j], later) == Valid
        <==> SameProposal(r[i].spec, r[j].spec) && InForce(r[i].spec.decision.value, later)
  {
    RunKeeps(r, i, j);
    assert r[i].spec.requestedBy != "";
    assert r[i].spec.proposalDigest != "";
  }

  /** So two validations in one run, in whatever order, are of the same proposal and the same decision. */
  lemma ValidatedProposalsAgree(h: Digest, r: seq<ChangeRequest>, i: nat, j: nat, s: int, t: int)
    requires CollisionFree(h) && Run(r) && i < |r| && j < |r|
    requires ValidateDecision(h, r[i], s) == Valid && ValidateDecision(h, r[j], t) == Valid
    ensures SameProposal(r[i].spec, r[j].spec) && r[i].spec.decision == r[j].spec.decision
  {
    if i <= j {
      DecisionStaysBound(h, r, i, j, s, t);
    } else {
      DecisionStaysBound(h, r, j, i, t, s);
    }
  }

  /** A decision that validates on one object validates on no object of another identity or requester. */
  lemma DecisionNotTransferable(h: Digest, c: ChangeRequest, c': ChangeRequest, now: int, later: int)
    requires CollisionFree(h) && ValidateDecision(h, c, now) == Valid
    requires c'.spec.decision == c.spec.decision
    requires c'.uid != c.uid || c'.namespace != c.namespace || c'.name != c.name
          || c'.spec.requestedBy != c.spec.requestedBy
    ensures ValidateDecision(h, c', later) != Valid
  {
    var d := c.spec.decision.value.(decisionDigest := "");
    var signed := DecisionPayload(c.namespace, c.name, c.spec.requestedBy, d);
    var copied := DecisionPayload(c'.namespace, c'.name, c'.spec.requestedBy, d);
    assert h(signed) == h(copied) ==> signed == copied;
  }

  // ---------- honest stamping ----------

  /** The decision a reviewer is stamped with on a pending object, digest included. */
  function Stamped(h: Digest, c: ChangeRequest, outcome: Outcome, reviewer: string, admissionUID: string,
                   decidedAt: int): Decision
    requires c.spec.scope.Some?
  {
    var scope := c.spec.scope.value;
    var d := Decision(outcome, reviewer, REVIEWER_GROUP, decidedAt, scope.validUntil, c.uid, admissionUID,
                      c.spec.proposalDigest, scope.scopeDigest, "");
    d.(decisionDigest := DecisionDigest(h, d, c.namespace, c.name, c.spec.requestedBy))
  }

  function Decide(c: ChangeRequest, d: Decision): ChangeRequest {
    c.(spec := c.spec.(approval := d.outcome, decision := Some(d)))
  }

  /** A pending proposal stamped with its own digest by a named requester. */
  predicate HonestProposal(h: Digest, c: ChangeRequest) {
    && c.spec.terms.action == AuthorizeRoute && c.spec.scope.Some?
    && TrimSpace(c.spec.requestedBy) != "" && c.uid != ""
    && c.spec.proposalDigest == ProposalDigest(h, c.spec, c.namespace, c.name)
  }

  /**
   An honest proposal decided by a distinct, named reviewer validates at exactly the times from five
   seconds before the decision up to the expiry; deciding does not disturb the proposal digest.
   */
  lemma HonestDecisionWindow(h: Digest, c: ChangeRequest, outcome: Outcome, reviewer: string,
                             admissionUID: string, decidedAt: int, now: int)
    requires HonestProposal(h, c) && outcome != Pending && admissionUID != ""
    requires TrimSpace(reviewer) != "" && reviewer != c.spec.requestedBy
    requires decidedAt != 0 && decidedAt < c.spec.scope.value.validUntil
    ensures var c' := Decide(c, Stamped(h, c, outcome, reviewer, admissionUID, decidedAt));
            && ProposalDigest(h, c'.spec, c.namespace, c.name) == c.spec.proposalDigest
            && (ValidateDecision(h, c', now) == Valid
                <==> (decidedAt - 5) * SECOND <= now < c.spec.scope.value.validUntil * SECOND)
  {
    var d := Stamped(h, c, outcome, reviewer, admissionUID, decidedAt);
    assert d.(decisionDigest := "") == d.(decisionDigest := "").(decisionDigest := "");
  }

  /**
   A decision validates exactly when it is the one stamping gives a reviewer other than the requester on this very
   proposal, with the outcome the object shows, while it is in force.
   */
  lemma ValidIsStamped(h: Digest, c: ChangeRequest, now: int)
    ensures ValidateDecision(h, c, now) == Valid <==>
            && HonestProposal(h, c) && c.spec.decision.Some? && c.spec.approval != Pending
            && var d := c.spec.decision.value;
               && TrimSpace(d.reviewerIdentity) != "" && d.reviewerIdentity != c.spec.requestedBy && d.admissionUID != ""
               && d == Stamped(h, c, c.spec.approval, d.reviewerIdentity, d.admissionUID, d.decidedAt)
               && InForce(d, now)
  {
    if c.spec.decision.Some? && c.spec.scope.Some? {
      var d := c.spec.decision.value;
      var stamped := Stamped(h, c, c.spec.approval, d.reviewerIdentity, d.admissionUID, d.decidedAt);
      assert stamped.(decisionDigest := "").(decisionDigest := "") == stamped.(decisionDigest := "");
      assert d == stamped ==> d.(decisionDigest := "") == stamped.(decisionDigest := "");
      assert d == d.(decisionDigest := d.decisionDigest);
    }
  }
}
