/**
 Where each call of the activation service leaves its record, told by what the call came to, and
 that a changed status is the same on both sides.
 */
module ActivationStatuses {
  import opened Wrappers
  import PC = PartnerClient
  import S = PartnerServer
  import PS = PartnerStatuses
  import opened ActivationService

  /** A code of the authentication, or one that names itself so. */
  predicate Unauthenticated(code: string) {
    || "AUTH_" <= code
    || code in {"PARTNER_UNKNOWN", "PARTNER_SUSPENDED", "CREDENTIAL_UNKNOWN", "CREDENTIAL_REVOKED",
                "CREDENTIAL_EXPIRED", "TIMESTAMP_OUT_OF_WINDOW", "NONCE_INVALID", "NONCE_REPLAYED", "SIGNATURE_INVALID", "SECRET_UNAVAILABLE"}
  }

  predicate UnauthenticatedFailure(errorCode: Option<string>) {
    errorCode.Some? && Unauthenticated(errorCode.value)
  }

  /**
   After a create: ACTIVE exactly on a verified receipt; in reconciliation exactly when in doubt;
   REJECTED exactly on a terminal refusal that is not about credentials; else QUARANTINED.
   */
  lemma CreateEnds(s: State, id: string, firstRequestId: string, outcome: CreateOutcome)
    requires id in s.activations
    ensures var s' := CompleteCreate(s, id, firstRequestId, outcome);
            && id in s'.activations && s'.activations[id].identityHint == Some("ACT-" + firstRequestId)
            && var status := s'.activations[id].status;
               && (status.Active? <==> outcome.Verified?)
               && (outcome.Verified? && outcome.activationId.Some? ==>
                     s'.activations[id].patchesActivationId == outcome.activationId)
               && (status.ReconciliationRequired? <==> outcome.Failed? && outcome.failureClass.Ambiguous?)
               && (status.Rejected? <==>
                     outcome.Failed? && outcome.failureClass.Terminal? && !UnauthenticatedFailure(outcome.errorCode))
               && (status.Quarantined? <==>
                     outcome.Failed?
                     && (outcome.failureClass.CleanRetryable?
                         || (outcome.failureClass.Terminal? && UnauthenticatedFailure(outcome.errorCode))))
               && (status.Quarantined? && outcome.failureClass.CleanRetryable? ==>
                     s'.activations[id].quarantineReason == Some("RETRIES_EXHAUSTED"))
  {
  }

  /** The activation shown is for the record's organisation, capability and binding. */
  predicate IsOurs(r: Record, v: S.Activation) {
    v.orgId == r.patchesOrgId && v.capability == r.capability && v.bindingId == r.bindingId
  }

  /** After a status query that reconciles: what the answer does to the record, and whether it sends. */
  lemma ReconcileEnds(s: State, c: Call, answer: StatusOutcome, bound: nat)
    requires c.ReconcileCall? && c.id in s.activations
    ensures var (s', call) := CompleteReconcile(s, c, answer, bound, Lives);
            var r := s.activations[c.id];
            && c.id in s'.activations && (c.id, c.attemptNo) in s'.reconciliations
            && var r' := s'.activations[c.id];
               && (call.Some? <==> answer.NotFound? && c.attemptNo >= bound)
               && (call.Some? ==>
                     call.value == CreateCall(c.id, r.patchesOrgId, r.capability, r.bindingId, r.idempotencyKey)
                     && r'.status.ActivationSent?)
               && (call.None? ==>
                     if answer.Shown? && answer.view.status.Active? && IsOurs(r, answer.view) then
                       r' == r.(status := Active, patchesActivationId := Some(answer.view.activationId))
                     else if answer.Denied? || (answer.Shown? && answer.view.status.Active?) then
                       r'.status.Quarantined? && r'.patchesActivationId == r.patchesActivationId
                     else r' == r)
               && (s'.reconciliations[(c.id, c.attemptNo)].resolution.ResolvedActive? <==>
                     answer.Shown? && answer.view.status.Active? && IsOurs(r, answer.view))
               && (s'.reconciliations[(c.id, c.attemptNo)].resolution.ResolvedNotFound? <==> call.Some?)
  {
  }

  /** After a status sync: the record follows the server's status, or is quarantined over an activation not its own. */
  lemma SyncEnds(s: State, c: Call, answer: StatusOutcome)
    requires c.SyncCall? && c.id in s.activations
    ensures var r, s' := s.activations[c.id], CompleteSync(s, c, answer);
            && c.id in s'.activations
            && var r' := s'.activations[c.id];
               if !answer.Shown? then s' == s
               else if !IsOurs(r, answer.view) then r'.status.Quarantined?
               else
                 match answer.view.status
                 case Active => if c.statusBefore.Active? then s' == s
                                else r'.status.Active? && r'.patchesActivationId == Some(answer.view.activationId)
                 case Deactivated => r'.status.Deactivated?
                 case Revoked => r'.status.Revoked?
  {
  }

  /** The status that an action aims at. */
  predicate Done(action: S.Action, status: Status) {
    if action.Revoke? then status.Revoked? else status.Deactivated?
  }

  /**
   Deactivating or revoking: the server is asked exactly when its id is known and the record does not
   have the status yet; without the id only a revocation acts, on the record alone.
   */
  lemma LifecycleBegins(s: State, id: string, action: S.Action)
    requires id in s.activations
    ensures var r := s.activations[id];
            var (s', call) := BeginLifecycle(s, id, action);
            var known := r.patchesActivationId.Some? && r.patchesActivationId.value != "";
            && id in s'.activations
            && (call.Some? <==> known && !Done(action, r.status))
            && (call.Some? ==> s' == s && call.value == LifecycleCall(id, action, r.patchesActivationId.value))
            && (if !known && action.Revoke? && !r.status.Revoked? then s'.activations[id].status.Revoked? else s' == s)
  {
  }

  /** After that call: the status aimed at on a verified receipt, reconciliation when in doubt, else no change. */
  lemma LifecycleEnds(s: State, c: Call, outcome: CreateOutcome)
    requires c.LifecycleCall? && c.id in s.activations
    ensures var r, s' := s.activations[c.id], CompleteLifecycle(s, c, outcome);
            && c.id in s'.activations
            && var r' := s'.activations[c.id];
               && (outcome.Verified? ==> Done(c.action, r'.status) && r' == r.(status := r'.status))
               && (outcome.Failed? && outcome.failureClass.Ambiguous? ==> r'.status.ReconciliationRequired?)
               && (outcome.Failed? && !outcome.failureClass.Ambiguous? ==> s' == s)
  {
  }

  /**
   Both sides change together: when the server answers the service's call with a receipt that is told
   of no duplicate, the activation it names is REVOKED, or DEACTIVATED, there, and the record here.
   */
  lemma LifecycleAgrees(s: State, c: Call, t: S.Tables, r: S.Request, circumstances: S.Circumstances, hash: S.BodyHash)
    requires c.LifecycleCall? && c.id in s.activations && PS.Keyed(t.core)
    requires r.route == S.Change(c.action, c.target)
    requires var reply := S.Handle(t, r, circumstances, hash).1;
             PS.Reports(reply, if c.action.Revoke? then S.RevokeOp else S.DeactivateOp, c.target)
    ensures var s' := CompleteLifecycle(s, c, Verified(Some(c.target)));
            var core := S.Handle(t, r, circumstances, hash).0.core;
            && c.id in s'.activations && c.target in core.activations
            && (if c.action.Revoke?
                then s'.activations[c.id].status.Revoked? && core.activations[c.target].status.Revoked?
                else s'.activations[c.id].status.Deactivated? && core.activations[c.target].status.Deactivated?)
  {
    LifecycleEnds(s, c, Verified(Some(c.target)));
    PS.ReceiptsTellStatuses(t, r, circumstances, hash, c.target);
  }

  // ----- What an activate call finds -----

  /** The first activation in flight for the intent's binding and capability, in order of storing. */
  ghost predicate FirstInFlight(s: State, q: Intent, id: string) {
    exists i ::
      && 0 <= i < |s.order| && s.order[i] == id && Competes(s, q, id)
      && (forall j :: 0 <= j < i ==> !Competes(s, q, s.order[j]))
  }

  predicate Competes(s: State, q: Intent, id: string) {
    && id in s.activations && s.activations[id].bindingId == q.bindingId && s.activations[id].capability == q.capability
    && (match s.activations[id].status
        case Rejected => false
        case Quarantined => false
        case Deactivated => false
        case Revoked => false
        case _ => true)
  }

  lemma {:induction false} FoundIsFirst(s: State, q: Intent, order: seq<string>)
    ensures var found := FindForBinding(s, order, q.bindingId, q.capability);
            && (found.None? ==> forall j :: 0 <= j < |order| ==> !Competes(s, q, order[j]))
            && (found.Some? ==>
                  exists i :: 0 <= i < |order| && order[i] == found.value && Competes(s, q, order[i])
                              && forall j :: 0 <= j < i ==> !Competes(s, q, order[j]))
  {
    if order != [] && !Competes(s, q, order[0]) {
      FoundIsFirst(s, q, order[1..]);
      var found := FindForBinding(s, order[1..], q.bindingId, q.capability);
      assert forall j :: 1 <= j < |order| ==> order[j] == order[1..][j - 1];
      if found.Some? {
        var i :| 0 <= i < |order[1..]| && order[1..][i] == found.value && Competes(s, q, order[1..][i])
                 && forall j :: 0 <= j < i ==> !Competes(s, q, order[1..][j]);
        assert order[i + 1] == found.value;
      }
    }
  }

  /** Sent, or perhaps sent, or under another key than the intent's. */
  predicate Blocks(r: Record, q: Intent) {
    || !(r.status.Pending? || r.status.ReadyToActivate?)
    || (q.idempotencyKey.Some? && q.idempotencyKey.value != r.idempotencyKey)
  }

  /**
   When an intent is collapsed into an activation under way: exactly when the first in flight for its
   binding and capability was perhaps sent, or has another key than the intent gives.
   */
  lemma CollapsedIff(s: State, disabled: bool, q: Intent, p: Preflight, stableKey: string, id: string)
    ensures ActivateGate(s, disabled, q, p, stableKey) == Collapsed(id)
            <==> && !disabled && p.patchesOrgId.Some? && !p.paused
                 && FirstInFlight(s, q, id) && Blocks(s.activations[id], q)
  {
    FoundIsFirst(s, q, s.order);
  }

  /** The intent's own key, or the one derived from it. */
  predicate GoesUnder(q: Intent, stableKey: string, key: string) {
    if q.idempotencyKey.Some? then key == q.idempotencyKey.value else key == stableKey
  }

  /**
   When an intent makes a new record: exactly when switch, mapping and preflight pass, the first in
   flight for its binding and capability does not block it, and no record has the key it goes under.
   */
  lemma FreshIff(s: State, disabled: bool, q: Intent, p: Preflight, stableKey: string)
    ensures var gate := ActivateGate(s, disabled, q, p, stableKey);
            && (gate.Fresh? <==>
                  && !disabled && p.patchesOrgId.Some? && !p.paused && !p.refused
                  && (forall id :: FirstInFlight(s, q, id) ==> !Blocks(s.activations[id], q))
                  && (forall id :: id in s.order && id in s.activations ==>
                        !GoesUnder(q, stableKey, s.activations[id].idempotencyKey)))
            && (gate.Fresh? ==> GoesUnder(q, stableKey, gate.key) && p.patchesOrgId == Some(gate.patchesOrgId))
  {
    FoundIsFirst(s, q, s.order);
    OneIsFirst(s, q);
  }

  lemma OneIsFirst(s: State, q: Intent)
    ensures forall a, b :: FirstInFlight(s, q, a) && FirstInFlight(s, q, b) ==> a == b
  {
    forall a, b | FirstInFlight(s, q, a) && FirstInFlight(s, q, b)
      ensures a == b
    {
      var i :| 0 <= i < |s.order| && s.order[i] == a && Competes(s, q, a)
               && forall j :: 0 <= j < i ==> !Competes(s, q, s.order[j]);
      var k :| 0 <= k < |s.order| && s.order[k] == b && Competes(s, q, b)
               && forall j :: 0 <= j < k ==> !Competes(s, q, s.order[j]);
      assert i <= k && k <= i;
    }
  }

  /** Whom a reconciliation asks about: the verified server id if there is one, else the hint. */
  predicate AsksAbout(r: Record, identity: string) {
    && identity != ""
    && (if r.patchesActivationId.Some? then identity == r.patchesActivationId.value
        else r.identityHint == Some(identity))
  }

  /** A reconciliation asks exactly in doubt and about an identity; without one the record is quarantined. */
  lemma ReconcileAsks(s: State, id: string)
    requires id in s.activations
    ensures var r := s.activations[id];
            var (s', call) := BeginReconcile(s, id);
            var doubtful := r.status.ReconciliationRequired? || r.status.ActivationSent?;
            && id in s'.activations
            && (call.Some? <==> doubtful && exists identity :: AsksAbout(r, identity))
            && (call.Some? ==>
                  s' == s && call.value.ReconcileCall? && call.value.id == id && AsksAbout(r, call.value.identity))
            && (call.None? && doubtful ==> s'.activations[id].status.Quarantined?)
            && (!doubtful ==> s' == s)
  {
    var identity := IdentityOf(s.activations[id]);
    if identity.Some? { assert AsksAbout(s.activations[id], identity.value); }
  }
}
