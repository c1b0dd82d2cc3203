/**
 The statuses of the partner server's activations: what each receipt says of them, how long they
 last, and what every stored status goes back to.
 */
module PartnerStatuses {
  import opened Wrappers
  import S = PartnerServer
  import AP = ActivationProtocol

  /** The request gets past everything that is asked before its route. */
  predicate Admitted(t: S.Tables, r: S.Request, c: S.Circumstances) {
    && !c.disabled && (r.route.Status? || c.unreadable.None?) && c.earlyAuth.None? && c.lateAuth.None?
    && c.throttled.None?
    && ((r.clientId, r.nonce) in t.nonces ==> t.nonces[(r.clientId, r.nonce)].firstSeenAt + 600_000 < c.now)
  }

  predicate WritesSucceed(fp: S.FailPoints) {
    !fp.persistActivation && !fp.persistReceipt && !fp.eventWrite && !fp.auditWrite
  }

  lemma AdmittedIsRouted(t: S.Tables, r: S.Request, c: S.Circumstances, hash: S.BodyHash)
    requires Admitted(t, r, c) && !r.route.NoRoute?
    ensures S.Handle(t, r, c, hash) == S.Routed(t.(nonces := S.Pruned(t.nonces, c.now)), r, c, hash)
  {
  }

  lemma OthersChangeNothing(t: S.Tables, r: S.Request, c: S.Circumstances, hash: S.BodyHash)
    requires !Admitted(t, r, c) || r.route.NoRoute?
    ensures var (t', reply) := S.Handle(t, r, c, hash);
            t'.core == t.core && (reply.Some? ==> reply.value.Refused?)
  {
  }

  // ----- One request -----

  /** The request revokes, or deactivates, this activation. */
  predicate Asks(r: S.Request, action: S.Action, id: string) {
    r.route == S.Change(action, id)
  }

  /** What deactivating or revoking a stored activation comes to. */
  lemma ChangeSays(t: S.Tables, r: S.Request, action: S.Action, id: string, c: S.Circumstances)
    requires id in t.core.activations && c.policy.None? && WritesSucceed(c.fp)
    ensures var (t', p) := S.ProcessChange(t, r, action, id, c);
            var before := t.core.activations[id].status;
            && p.Answered? && id in t'.core.activations
            && (if action.Deactivate? && before.Revoked? then
                  p.reply == S.Refused(409, "ACTIVATION_REVOKED") && t'.core == t.core
                else
                  && p.reply.Receipted? && p.reply.receipt.activationId == id
                  && p.reply.receipt.operation == (if action.Revoke? then S.RevokeOp else S.DeactivateOp)
                  && (t.core.activations[id].activationId == id ==>
                        t'.core.activations[id].status == (if action.Revoke? then S.Revoked else S.Deactivated)))
  {
  }

  /**
   With policy and writes allowing, revoking a stored activation always answers a receipt, and
   deactivating one answers a conflict exactly when it is revoked, and a receipt otherwise.
   */
  lemma ChangesAreAnswered(t: S.Tables, r: S.Request, c: S.Circumstances, hash: S.BodyHash, action: S.Action,
                           id: string)
    requires Admitted(t, r, c) && Asks(r, action, id) && id in t.core.activations
    requires c.policy.None? && WritesSucceed(c.fp)
    ensures var reply := S.Handle(t, r, c, hash).1;
            && reply.Some?
            && (reply.value == S.Refused(409, "ACTIVATION_REVOKED") <==>
                  action.Deactivate? && t.core.activations[id].status.Revoked?)
            && (reply.value.Receipted? <==> action.Revoke? || !t.core.activations[id].status.Revoked?)
            && (reply.value.Receipted? ==>
                  && reply.value.receipt.activationId == id
                  && reply.value.receipt.operation == (if action.Revoke? then S.RevokeOp else S.DeactivateOp))
  {
    AdmittedIsRouted(t, r, c, hash);
    ChangeSays(t.(nonces := S.Pruned(t.nonces, c.now)), r, action, id, c);
  }

  // ----- Policy, creates and views -----

  /** With the policy objecting the core tables stay, and neither a receipt nor a view is answered. */
  lemma PolicyIsObeyed(t: S.Tables, r: S.Request, c: S.Circumstances, hash: S.BodyHash)
    requires c.policy.Some?
    ensures var (t', reply) := S.Handle(t, r, c, hash);
            t'.core == t.core && (reply.Some? ==> reply.value.Refused?)
  {
    if !Admitted(t, r, c) || r.route.NoRoute? { OthersChangeNothing(t, r, c, hash); }
    else { AdmittedIsRouted(t, r, c, hash); }
  }

  /** What the request's key is bound to, if it is bound. */
  function BoundTo(t: S.Tables, r: S.Request, b: S.Body): Option<S.Binding> {
    if b.idempotencyKey.Some? && (r.clientId, b.idempotencyKey.value) in t.core.idempotency
    then Some(t.core.idempotency[(r.clientId, b.idempotencyKey.value)]) else None
  }

  /** The create that was asked for stands: its activation, receipt, binding and event. */
  predicate Stands(core: S.Core, r: S.Request, b: S.Body, events: nat) {
    var id := "ACT-" + r.requestId;
    && b.orgId.Some? && b.capability.Some? && b.bindingId.Some? && b.idempotencyKey.Some?
    && id in core.activations && core.activations[id].status.Active?
    && core.activations[id].orgId == b.orgId.value && core.activations[id].capability == b.capability.value
    && core.activations[id].bindingId == b.bindingId.value
    && (r.clientId, b.idempotencyKey.value) in core.idempotency
    && core.idempotency[(r.clientId, b.idempotencyKey.value)].activationId == id
    && S.ReceiptIdFor(S.CreateOp, r.requestId) in core.receipts
    && core.receipts[S.ReceiptIdFor(S.CreateOp, r.requestId)].activationId == id
    && |core.events| == events + 1
  }

  /**
   What a create is answered: a repeat of its body gets a receipt for the activation its key is bound to,
   another body under the key a conflict, and nothing changes; a receipt for a new activation comes
   exactly when nothing fails, and then all of it stands.
   */
  lemma CreatesAreAnswered(t: S.Tables, r: S.Request, c: S.Circumstances, hash: S.BodyHash, b: S.Body)
    requires Admitted(t, r, c) && r.route == S.Create(Some(b))
    ensures var (t', reply) := S.Handle(t, r, c, hash);
            var bound, open := BoundTo(t, r, b), S.Complete(b) && c.policy.None?;
            var receipted := reply.Some? && reply.value.Receipted?;
            && (receipted && reply.value.receipt.duplicate <==>
                  open && bound.Some? && bound.value.requestHash == hash(b) && !c.fp.auditWrite)
            && (receipted && reply.value.receipt.duplicate ==>
                  reply.value.receipt.activationId == bound.value.activationId && t'.core == t.core)
            && (open && bound.Some? && bound.value.requestHash != hash(b) ==>
                  && t'.core == t.core
                  && reply == if c.fp.auditWrite then None else Some(S.Refused(409, "IDEMPOTENCY_KEY_CONFLICT")))
            && (receipted && !reply.value.receipt.duplicate <==>
                  open && bound.None? && c.downstreamOk && WritesSucceed(c.fp))
            && (receipted && !reply.value.receipt.duplicate ==>
                  reply.value.receipt.activationId == "ACT-" + r.requestId && Stands(t'.core, r, b, |t.core.events|))
  {
    AdmittedIsRouted(t, r, c, hash);
    CreateSays(t.(nonces := S.Pruned(t.nonces, c.now)), r, b, hash(b), c);
  }

  lemma CreateSays(t: S.Tables, r: S.Request, b: S.Body, hash: string, c: S.Circumstances)
    ensures var (t', p) := S.ProcessCreate(t, r, b, hash, c);
            var bound, open := BoundTo(t, r, b), S.Complete(b) && c.policy.None?;
            var receipted := p.Answered? && p.reply.Receipted?;
            && (receipted && p.reply.receipt.duplicate <==>
                  open && bound.Some? && bound.value.requestHash == hash && !c.fp.auditWrite)
            && (receipted && p.reply.receipt.duplicate ==>
                  p.reply.receipt.activationId == bound.value.activationId && t'.core == t.core)
            && (open && bound.Some? && bound.value.requestHash != hash ==>
                  && t'.core == t.core && (p.Thrown? <==> c.fp.auditWrite)
                  && (p.Answered? ==> p.reply == S.Refused(409, "IDEMPOTENCY_KEY_CONFLICT")))
            && (receipted && !p.reply.receipt.duplicate <==>
                  open && bound.None? && c.downstreamOk && WritesSucceed(c.fp))
            && (receipted && !p.reply.receipt.duplicate ==>
                  p.reply.receipt.activationId == "ACT-" + r.requestId && Stands(t'.core, r, b, |t.core.events|))
  {
  }

  /** An activation is shown exactly where it is stored and the policy allows, and as it is stored. */
  lemma ShownIff(t: S.Tables, r: S.Request, c: S.Circumstances, hash: S.BodyHash, id: string)
    requires Admitted(t, r, c) && r.route == S.Status(id)
    ensures var (t', reply) := S.Handle(t, r, c, hash);
            && t'.core == t.core && reply.Some?
            && (reply.value.Shown? <==> id in t.core.activations && c.policy.None?)
            && (reply.value.Shown? ==> reply.value == S.Shown(t.core.activations[id]))
            && (reply.value == S.Refused(404, "ACTIVATION_UNKNOWN") <==> id !in t.core.activations)
  {
    AdmittedIsRouted(t, r, c, hash);
  }

  /** Every activation stands under its own id. */
  predicate Keyed(core: S.Core) {
    forall id :: id in core.activations ==> core.activations[id].activationId == id
  }

  function StatusOf(op: S.Operation): S.ActivationStatus {
    match op
    case CreateOp => S.Active
    case DeactivateOp => S.Deactivated
    case RevokeOp => S.Revoked
  }

  /** The reply tells its client that this operation was done, not that it had been. */
  predicate Reports(reply: Option<S.Reply>, op: S.Operation, id: string) {
    && reply.Some? && reply.value.Receipted? && reply.value.receipt.operation == op
    && reply.value.receipt.activationId == id && !reply.value.receipt.duplicate
  }

  /** What a request does to one activation's status: nothing, or what its receipt says. */
  predicate StatusMoves(core: S.Core, core': S.Core, reply: Option<S.Reply>, id: string) {
    && (id in core.activations ==> id in core'.activations)
    && (id in core'.activations ==>
          || (id in core.activations && core'.activations[id].status == core.activations[id].status)
          || (exists op :: Reports(reply, op, id) && core'.activations[id].status == StatusOf(op)))
    && (forall op :: Reports(reply, op, id) ==> id in core'.activations && core'.activations[id].status == StatusOf(op))
  }

  lemma CreateMoves(t: S.Tables, r: S.Request, b: S.Body, hash: string, c: S.Circumstances, id: string)
    requires Keyed(t.core)
    ensures var (t', p) := S.ProcessCreate(t, r, b, hash, c);
            && Keyed(t'.core)
            && StatusMoves(t.core, t'.core, if p.Answered? then Some(p.reply) else None, id)
  {
    AP.ProcessCreateIs(t, r, b, hash, c);
    var (t', p) := S.ProcessCreate(t, r, b, hash, c);
    if p.Answered? && p.reply.Receipted? && !p.reply.receipt.duplicate {
      assert Reports(Some(p.reply), S.CreateOp, S.ActivationIdFor(r.requestId));
    }
  }

  lemma ChangeKeepsKeys(t: S.Tables, r: S.Request, action: S.Action, changed: string, c: S.Circumstances)
    requires Keyed(t.core)
    ensures Keyed(S.ProcessChange(t, r, action, changed, c).0.core)
  {
  }

  lemma ChangeMoves(t: S.Tables, r: S.Request, action: S.Action, changed: string, c: S.Circumstances, id: string)
    requires Keyed(t.core)
    ensures var (t', p) := S.ProcessChange(t, r, action, changed, c);
            StatusMoves(t.core, t'.core, if p.Answered? then Some(p.reply) else None, id)
  {
    var (t', p) := S.ProcessChange(t, r, action, changed, c);
    if p.Answered? && p.reply.Receipted? {
      assert Reports(Some(p.reply), S.OperationOf(action), changed);
    }
  }

  /**
   Receipts and statuses go together: a request leaves a status as it is or reports, for that very
   activation, the operation the new status comes from; and what it reports is so afterwards.
   */
  lemma ReceiptsTellStatuses(t: S.Tables, r: S.Request, c: S.Circumstances, hash: S.BodyHash, id: string)
    requires Keyed(t.core)
    ensures var (t', reply) := S.Handle(t, r, c, hash);
            Keyed(t'.core) && StatusMoves(t.core, t'.core, reply, id)
  {
    if !Admitted(t, r, c) || r.route.NoRoute? {
      OthersChangeNothing(t, r, c, hash);
    } else {
      AdmittedIsRouted(t, r, c, hash);
      var t1 := t.(nonces := S.Pruned(t.nonces, c.now));
      match r.route {
        case Create(body) => if body.Some? { CreateMoves(t1, r, body.value, hash(body.value), c, id); }
        case Change(action, changed) =>
          ChangeKeepsKeys(t1, r, action, changed, c);
          ChangeMoves(t1, r, action, changed, c, id);
        case _ =>
      }
    }
  }

  // ----- REVOKED is final -----

  /** A create for an unbound key, nothing against it, whose request id has this activation's id. */
  predicate Recreates(t: S.Tables, r: S.Request, c: S.Circumstances, id: string) {
    && Admitted(t, r, c) && r.route.Create? && r.route.body.Some? && S.Complete(r.route.body.value)
    && S.ActivationIdFor(r.requestId) == id
    && (r.clientId, r.route.body.value.idempotencyKey.value) !in t.core.idempotency
    && c.policy.None? && c.downstreamOk && WritesSucceed(c.fp)
  }

  lemma CreateSparesIff(t: S.Tables, r: S.Request, b: S.Body, hash: string, c: S.Circumstances, id: string)
    requires id in t.core.activations && t.core.activations[id].status.Revoked?
    ensures var t' := S.ProcessCreate(t, r, b, hash, c).0;
            && id in t'.core.activations
            && (t'.core.activations[id].status.Revoked?
                <==> !(&& S.Complete(b) && S.ActivationIdFor(r.requestId) == id && c.policy.None? && c.downstreamOk
                       && (r.clientId, b.idempotencyKey.value) !in t.core.idempotency && WritesSucceed(c.fp)))
  {
  }

  lemma ChangeSpares(t: S.Tables, r: S.Request, action: S.Action, changed: string, c: S.Circumstances, id: string)
    requires Keyed(t.core) && id in t.core.activations && t.core.activations[id].status.Revoked?
    ensures var t' := S.ProcessChange(t, r, action, changed, c).0;
            id in t'.core.activations && t'.core.activations[id].status.Revoked?
  {
  }

  /**
   The exact condition under which one request leaves a revoked activation revoked: it does not
   create it anew. A request id is the client's, and one used before makes the same activation id.
   */
  lemma RevokedStaysIff(t: S.Tables, r: S.Request, c: S.Circumstances, hash: S.BodyHash, id: string)
    requires Keyed(t.core) && id in t.core.activations && t.core.activations[id].status.Revoked?
    ensures var t' := S.Handle(t, r, c, hash).0;
            id in t'.core.activations && (t'.core.activations[id].status.Revoked? <==> !Recreates(t, r, c, id))
  {
    if !Admitted(t, r, c) || r.route.NoRoute? {
      OthersChangeNothing(t, r, c, hash);
    } else {
      AdmittedIsRouted(t, r, c, hash);
      var t1 := t.(nonces := S.Pruned(t.nonces, c.now));
      match r.route {
        case Create(body) => if body.Some? { CreateSparesIff(t1, r, body.value, hash(body.value), c, id); }
        case Change(action, changed) => ChangeSpares(t1, r, action, changed, c, id);
        case _ =>
      }
    }
  }

  /** A request and everything that surrounds it. */
  datatype Visit = Visit(request: S.Request, circumstances: S.Circumstances)

  function Handled(t: S.Tables, v: Visit, hash: S.BodyHash): (S.Tables, Option<S.Reply>) {
    S.Handle(t, v.request, v.circumstances, hash)
  }

  function After(t: S.Tables, visits: seq<Visit>, hash: S.BodyHash): S.Tables
    decreases |visits|
  {
    if visits == [] then t else After(Handled(t, visits[0], hash).0, visits[1..], hash)
  }

  /** No request of the run creates the activation anew. */
  ghost predicate NeverRecreated(t: S.Tables, visits: seq<Visit>, hash: S.BodyHash, id: string)
    decreases |visits|
  {
    visits == []
    || (&& !Recreates(t, visits[0].request, visits[0].circumstances, id)
        && NeverRecreated(Handled(t, visits[0], hash).0, visits[1..], hash, id))
  }

  /** REVOKED is final: through every later run that does not create the activation anew. */
  lemma {:induction false} RevokedIsFinal(t: S.Tables, visits: seq<Visit>, hash: S.BodyHash, id: string)
    requires Keyed(t.core) && id in t.core.activations && t.core.activations[id].status.Revoked?
    requires NeverRecreated(t, visits, hash, id)
    ensures var t' := After(t, visits, hash); id in t'.core.activations && t'.core.activations[id].status.Revoked?
    decreases |visits|
  {
    if visits != [] {
      RevokedStaysIff(t, visits[0].request, visits[0].circumstances, hash, id);
      ReceiptsTellStatuses(t, visits[0].request, visits[0].circumstances, hash, id);
      RevokedIsFinal(Handled(t, visits[0], hash).0, visits[1..], hash, id);
    }
  }

  const NO_FAILURES := S.FailPoints(false, false, false, false)
  const QUIET := S.Circumstances(false, None, None, None, None, None, true, NO_FAILURES, 0)

  /** A create under request id "q", for this key. */
  function Creating(key: string, nonce: string): Visit {
    Visit(S.Request(S.Create(Some(S.Body(Some("org"), Some("capability"), Some("binding"), Some(key), ""))),
                    "client", "partner", "q", nonce), QUIET)
  }

  function Revoking(nonce: string): Visit {
    Visit(S.Request(S.Change(S.Revoke, S.ActivationIdFor("q")), "client", "partner", "r", nonce), QUIET)
  }

  /** Such a request exists: a create under a used request id and a new key makes the activation ACTIVE again. */
  lemma RevokedCanBeRecreated(hash: S.BodyHash)
    ensures var id := S.ActivationIdFor("q");
            var t1 := Handled(S.EMPTY, Creating("key", "a"), hash).0;
            var t2 := Handled(t1, Revoking("b"), hash).0;
            var t3 := Handled(t2, Creating("another", "c"), hash).0;
            && id in t2.core.activations && t2.core.activations[id].status.Revoked?
            && id in t3.core.activations && t3.core.activations[id].status.Active?
  {
    var id := S.ActivationIdFor("q");
    var t1 := Handled(S.EMPTY, Creating("key", "a"), hash).0;
    assert id in t1.core.activations && t1.core.activations[id].activationId == id;
    var t2 := Handled(t1, Revoking("b"), hash).0;
    assert ("client", "another") != ("client", "key");
    assert Recreates(t2, Creating("another", "c").request, QUIET, id);
    RevokedStaysIff(t2, Creating("another", "c").request, QUIET, hash, id);
    ReceiptsTellStatuses(t2, Creating("another", "c").request, QUIET, hash, id);
  }

  // ----- In the protocol, request ids are fresh -----

  /** An activation that exists has its key bound, so its own request creates nothing anew. */
  lemma FreshIdsDoNotRecreate(y: AP.System, r: S.Request, c: S.Circumstances, hash: S.BodyHash, id: string)
    requires AP.Ok(y, hash) && AP.Enabled(y, AP.Serve(r, c)) && id in y.tables.core.activations
    ensures !Recreates(y.tables, r, c, id)
  {
    assert AP.ActivationOk(y.tables.core, y.wire, hash, id);
    AP.IdsAreTheirRequests(r.requestId);
  }

  lemma OkIsKeyed(y: AP.System, hash: S.BodyHash)
    requires AP.Ok(y, hash)
    ensures Keyed(y.tables.core)
  {
    forall id | id in y.tables.core.activations ensures y.tables.core.activations[id].activationId == id {
      assert AP.ActivationOk(y.tables.core, y.wire, hash, id);
    }
  }

  lemma TablesMoveByServing(y: AP.System, e: AP.Event, hash: S.BodyHash)
    ensures AP.Next(y, e, hash).tables
            == if e.Serve? && AP.Enabled(y, e) then S.Handle(y.tables, e.request, e.circumstances, hash).0 else y.tables
  {
  }

  lemma RevokedStaysInProtocol(y: AP.System, e: AP.Event, hash: S.BodyHash, id: string)
    requires AP.Ok(y, hash) && id in y.tables.core.activations && y.tables.core.activations[id].status.Revoked?
    ensures var core := AP.Next(y, e, hash).tables.core;
            id in core.activations && core.activations[id].status.Revoked?
  {
    TablesMoveByServing(y, e, hash);
    if e.Serve? && AP.Enabled(y, e) {
      OkIsKeyed(y, hash);
      FreshIdsDoNotRecreate(y, e.request, e.circumstances, hash, id);
      RevokedStaysIff(y.tables, e.request, e.circumstances, hash, id);
    }
  }

  /** In every reachable system of the protocol REVOKED is final, whatever happens later. */
  lemma {:induction false} RevokedIsFinalInProtocol(y: AP.System, later: seq<AP.Event>, hash: S.BodyHash, id: string)
    requires AP.Ok(y, hash) && AP.Injective(hash)
    requires id in y.tables.core.activations && y.tables.core.activations[id].status.Revoked?
    ensures var core := AP.Run(y, later, hash).tables.core;
            id in core.activations && core.activations[id].status.Revoked?
    decreases |later|
  {
    if later != [] {
      AP.NextKeeps(y, later[0], hash);
      RevokedStaysInProtocol(y, later[0], hash, id);
      RevokedIsFinalInProtocol(AP.Next(y, later[0], hash), later[1..], hash, id);
    }
  }

  // ----- What a stored status goes back to -----

  /** Some request of the run was told that this operation was done to the activation. */
  ghost predicate WasReported(t: S.Tables, visits: seq<Visit>, hash: S.BodyHash, op: S.Operation, id: string)
    decreases |visits|
  {
    && visits != []
    && (Reports(Handled(t, visits[0], hash).1, op, id)
        || WasReported(Handled(t, visits[0], hash).0, visits[1..], hash, op, id))
  }

  lemma {:induction false} StatusGoesBack(t: S.Tables, visits: seq<Visit>, hash: S.BodyHash, id: string)
    requires Keyed(t.core) && id in After(t, visits, hash).core.activations
    ensures var status := After(t, visits, hash).core.activations[id].status;
            || (id in t.core.activations && t.core.activations[id].status == status)
            || (exists op :: StatusOf(op) == status && WasReported(t, visits, hash, op, id))
    decreases |visits|
  {
    if visits != [] {
      ReceiptsTellStatuses(t, visits[0].request, visits[0].circumstances, hash, id);
      StatusGoesBack(Handled(t, visits[0], hash).0, visits[1..], hash, id);
    }
  }

  /**
   Every status a run from the empty store leaves goes back to a receipt: ACTIVE to one for a create,
   DEACTIVATED to one for a deactivation, REVOKED to one for a revocation, of that activation.
   */
  lemma StatusesGoBackToReceipts(start: S.Tables, visits: seq<Visit>, hash: S.BodyHash, id: string)
    requires start == S.EMPTY && id in After(start, visits, hash).core.activations
    ensures var status := After(start, visits, hash).core.activations[id].status;
            && (status.Active? ==> WasReported(start, visits, hash, S.CreateOp, id))
            && (status.Deactivated? ==> WasReported(start, visits, hash, S.DeactivateOp, id))
            && (status.Revoked? ==> WasReported(start, visits, hash, S.RevokeOp, id))
  {
    StatusGoesBack(start, visits, hash, id);
  }
}
