/**
 The activation protocol end to end: ARMA's service, any other clients, the partner server, and a
 network that loses, repeats and delays. Requests carry ids nobody uses twice. A receipt cannot
 be made up; a status view is one the server once gave.
 */
module ActivationProtocol {
  import opened Wrappers
  import Nonces
  import S = PartnerServer
  import A = ActivationService
  import AS = ActivationSends

  /**
   A create request on the wire, with the nonce and the time that are part of its signature; `owner`
   is the ARMA activation it was sent for, if it is ARMA's.
   */
  datatype Sent = Sent(clientId: string, body: S.Body, owner: Option<string>, nonce: string, timestamp: int)

  type Wire = map<string, Sent>

  datatype System = System(side: AS.Side, wire: Wire, tables: S.Tables,
                           receipts: set<S.SignedReceipt>, views: set<S.Activation>)

  const START := System(AS.START, map[], S.EMPTY, {}, {})

  datatype Event =
    | Local(move: AS.Move, receipt: Option<S.SignedReceipt>)
    | Emit(requestId: string, call: A.Call, clientId: string, nonce: string, timestamp: int)
    | Foreign(requestId: string, clientId: string, body: S.Body, nonce: string, timestamp: int)
    | Serve(request: S.Request, circumstances: S.Circumstances)

  /** The body of ARMA's create: four fields in a fixed order. */
  function BodyOf(orgId: string, capability: string, bindingId: string, key: string): S.Body {
    S.Body(Some(orgId), Some(capability), Some(bindingId), Some(key), "")
  }

  /** What a completed call may claim. */
  predicate Genuine(y: System, m: AS.Move, receipt: Option<S.SignedReceipt>) {
    match m
    case CreateDone(c, _, outcome) =>
      outcome.Verified? ==>
        && receipt.Some? && receipt.value in y.receipts && receipt.value.operation.CreateOp?
        && receipt.value.requestId in y.wire && y.wire[receipt.value.requestId].owner == Some(c.id)
        && outcome.activationId == Some(receipt.value.activationId)
    case ReconcileDone(_, answer, _, _) => answer.Shown? ==> answer.view in y.views
    case SyncDone(_, answer) => answer.Shown? ==> answer.view in y.views
    case _ => true
  }

  /** What authentication asks of a signature: a proper nonce, and a time close to the server's. */
  predicate Timely(q: Sent, now: int) {
    Nonces.WellFormedNonce(q.nonce) && q.timestamp - S.MAX_CLOCK_SKEW_MS <= now <= q.timestamp + S.MAX_CLOCK_SKEW_MS
  }

  /** The create as it was sent: nothing the signature covers can be changed. */
  predicate Carries(wire: Wire, r: S.Request)
    requires r.route.Create? && r.route.body.Some?
  {
    && r.requestId in wire && wire[r.requestId].clientId == r.clientId
    && wire[r.requestId].body == r.route.body.value && wire[r.requestId].nonce == r.nonce
  }

  predicate Enabled(y: System, e: Event) {
    match e
    case Local(m, receipt) => Genuine(y, m, receipt)
    case Emit(id, c, _, _, _) => id !in y.wire && c in y.side.calls && c.CreateCall?
    case Foreign(id, _, _, _, _) => id !in y.wire
    case Serve(r, c) =>
      r.route.Create? && r.route.body.Some? ==>
        Carries(y.wire, r) && (!Timely(y.wire[r.requestId], c.now) ==> c.earlyAuth.Some?)
  }

  /** ARMA's create call as one attempt puts it on the wire. */
  function Attempt(c: A.Call, clientId: string, nonce: string, timestamp: int): Sent
    requires c.CreateCall?
  {
    Sent(clientId, BodyOf(c.orgId, c.capability, c.bindingId, c.idempotencyKey), Some(c.id), nonce, timestamp)
  }

  function Served(y: System, result: (S.Tables, Option<S.Reply>)): System {
    var y' := y.(tables := result.0);
    match result.1
    case None => y'
    case Some(Refused(_, _)) => y'
    case Some(Receipted(receipt)) => y'.(receipts := y.receipts + {receipt})
    case Some(Shown(view)) => y'.(views := y.views + {view})
  }

  function Next(y: System, e: Event, hash: S.BodyHash): System {
    if !Enabled(y, e) then y
    else
      match e
      case Local(m, _) => y.(side := AS.Moved(y.side, m))
      case Emit(id, c, clientId, nonce, timestamp) =>
        y.(wire := y.wire[id := Attempt(c, clientId, nonce, timestamp)])
      case Foreign(id, clientId, body, nonce, timestamp) =>
        y.(wire := y.wire[id := Sent(clientId, body, None, nonce, timestamp)])
      case Serve(r, c) => Served(y, S.Handle(y.tables, r, c, hash))
  }

  function Run(y: System, events: seq<Event>, hash: S.BodyHash): System
    decreases |events|
  {
    if events == [] then y else Run(Next(y, events[0], hash), events[1..], hash)
  }

  // ----- The server's invariant -----

  /** The activation is the one this request created. */
  predicate MadeBy(a: S.Activation, body: S.Body, hash: S.BodyHash) {
    && S.Complete(body)
    && a.orgId == body.orgId.value && a.capability == body.capability.value
    && a.bindingId == body.bindingId.value && a.idempotencyKey == body.idempotencyKey.value
    && a.payloadHash == hash(body)
  }

  function RequestIdOf(activationId: string): string {
    if |activationId| >= 4 then activationId[4..] else ""
  }

  /** An activation goes back to its request, and its client's key is bound to it. */
  predicate ActivationOk(core: S.Core, wire: Wire, hash: S.BodyHash, id: string)
    requires id in core.activations
  {
    var q := RequestIdOf(id);
    && id == S.ActivationIdFor(q) && q in wire && MadeBy(core.activations[id], wire[q].body, hash)
    && core.activations[id].activationId == id
    && var key := (wire[q].clientId, core.activations[id].idempotencyKey);
       key in core.idempotency && core.idempotency[key].activationId == id
  }

  /** A bound key leads to an activation with the hash it is bound with. */
  predicate BindingOk(core: S.Core, wire: Wire, key: (string, string))
    requires key in core.idempotency
  {
    var b := core.idempotency[key];
    && b.activationId in core.activations && core.activations[b.activationId].payloadHash == b.requestHash
    && RequestIdOf(b.activationId) in wire
    && key == (wire[RequestIdOf(b.activationId)].clientId, core.activations[b.activationId].idempotencyKey)
  }

  ghost predicate CoreOk(core: S.Core, wire: Wire, hash: S.BodyHash) {
    && (forall id :: id in core.activations ==> ActivationOk(core, wire, hash, id))
    && (forall key :: key in core.idempotency ==> BindingOk(core, wire, key))
  }

  predicate SameActivation(a: S.Activation, b: S.Activation) {
    && a.activationId == b.activationId && a.orgId == b.orgId && a.capability == b.capability
    && a.bindingId == b.bindingId && a.idempotencyKey == b.idempotencyKey && a.payloadHash == b.payloadHash
  }

  /** Activations and bindings are never lost, nor what they are about; only statuses move. */
  predicate Extends(core: S.Core, core': S.Core) {
    && (forall id :: id in core.activations ==>
          id in core'.activations && SameActivation(core.activations[id], core'.activations[id]))
    && (forall key :: key in core.idempotency ==> key in core'.idempotency && core'.idempotency[key] == core.idempotency[key])
  }

  ghost predicate Injective(hash: S.BodyHash) {
    forall a, b :: hash(a) == hash(b) ==> a == b
  }

  /** A signed create receipt names an activation made for its request's content. */
  predicate ReceiptOk(core: S.Core, wire: Wire, hash: S.BodyHash, r: S.SignedReceipt) {
    r.operation.CreateOp? ==>
      && r.requestId in wire && r.activationId in core.activations
      && MadeBy(core.activations[r.activationId], wire[r.requestId].body, hash)
  }

  predicate ViewOk(core: S.Core, v: S.Activation) {
    v.activationId in core.activations && SameActivation(core.activations[v.activationId], v)
  }

  ghost predicate ServerOk(y: System, hash: S.BodyHash) {
    && CoreOk(y.tables.core, y.wire, hash)
    && (forall r :: r in y.receipts ==> ReceiptOk(y.tables.core, y.wire, hash, r))
    && (forall v :: v in y.views ==> ViewOk(y.tables.core, v))
  }

  lemma IdsAreTheirRequests(q: string)
    ensures RequestIdOf(S.ActivationIdFor(q)) == q
  {
  }

  /** A fresh create takes an unused id, since a used one has its key bound already. */
  lemma CreatedKeeps(core: S.Core, wire: Wire, hash: S.BodyHash, r: S.Request, b: S.Body, now: int)
    requires CoreOk(core, wire, hash) && S.Complete(b)
    requires r.requestId in wire && wire[r.requestId].clientId == r.clientId && wire[r.requestId].body == b
    requires (r.clientId, b.idempotencyKey.value) !in core.idempotency
    ensures var core' := S.Created(core, r, b, hash(b), now);
            && CoreOk(core', wire, hash) && Extends(core, core')
            && MadeBy(core'.activations[S.ActivationIdFor(r.requestId)], b, hash)
  {
    var id := S.ActivationIdFor(r.requestId);
    var core' := S.Created(core, r, b, hash(b), now);
    IdsAreTheirRequests(r.requestId);
    assert id in core.activations ==> ActivationOk(core, wire, hash, id);
    forall a | a in core'.activations
      ensures ActivationOk(core', wire, hash, a)
    {
      if a != id { assert ActivationOk(core, wire, hash, a); }
    }
    forall key | key in core'.idempotency
      ensures BindingOk(core', wire, key)
    {
      if key in core.idempotency { assert BindingOk(core, wire, key); }
    }
  }

  lemma ChangedKeeps(core: S.Core, wire: Wire, hash: S.BodyHash, r: S.Request, action: S.Action, id: string, now: int)
    requires CoreOk(core, wire, hash) && id in core.activations
    ensures var core' := S.Changed(core, r, action, core.activations[id], now);
            CoreOk(core', wire, hash) && Extends(core, core')
  {
  }

  /** What serving one POST leaves, and what its receipt says. */
  predicate ServedWell(core: S.Core, core': S.Core, wire: Wire, hash: S.BodyHash, p: S.Processed)
  {
    && Extends(core, core')
    && (p.Answered? && p.reply.Receipted? ==> ReceiptOk(core', wire, hash, p.reply.receipt))
    && (p.Answered? ==> !p.reply.Shown?)
  }

  /** What processing a create comes to: nothing, the repeat of a binding, or a new activation. */
  predicate CreateResult(core: S.Core, core': S.Core, p: S.Processed, r: S.Request, b: S.Body, hash: string, now: int) {
    || (core' == core && (p.Thrown? || p.reply.Refused?))
    || (&& S.Complete(b) && p.Answered? && p.reply.Receipted?
        && p.reply.receipt.operation.CreateOp? && p.reply.receipt.requestId == r.requestId
        && var key := (r.clientId, b.idempotencyKey.value);
           if key in core.idempotency then
             && core' == core && core.idempotency[key].requestHash == hash
             && p.reply.receipt.activationId == core.idempotency[key].activationId
           else core' == S.Created(core, r, b, hash, now)
                && p.reply.receipt.activationId == S.ActivationIdFor(r.requestId))
  }

  lemma ProcessCreateIs(t: S.Tables, r: S.Request, b: S.Body, hash: string, c: S.Circumstances)
    ensures var (t', p) := S.ProcessCreate(t, r, b, hash, c); CreateResult(t.core, t'.core, p, r, b, hash, c.now)
  {
  }

  lemma CreateResultServes(core: S.Core, core': S.Core, p: S.Processed, wire: Wire, hash: S.BodyHash,
                           r: S.Request, b: S.Body, now: int)
    requires CoreOk(core, wire, hash) && Injective(hash) && CreateResult(core, core', p, r, b, hash(b), now)
    requires r.requestId in wire && wire[r.requestId].clientId == r.clientId && wire[r.requestId].body == b
    ensures CoreOk(core', wire, hash) && ServedWell(core, core', wire, hash, p)
  {
    if S.Complete(b) {
      var key := (r.clientId, b.idempotencyKey.value);
      if key in core.idempotency {
        assert BindingOk(core, wire, key);
        assert ActivationOk(core, wire, hash, core.idempotency[key].activationId);
      } else {
        CreatedKeeps(core, wire, hash, r, b, now);
      }
    }
  }

  lemma CreateServes(t: S.Tables, wire: Wire, hash: S.BodyHash, r: S.Request, b: S.Body, c: S.Circumstances)
    requires CoreOk(t.core, wire, hash) && Injective(hash)
    requires r.requestId in wire && wire[r.requestId].clientId == r.clientId && wire[r.requestId].body == b
    ensures var (t', p) := S.ProcessCreate(t, r, b, hash(b), c);
            CoreOk(t'.core, wire, hash) && ServedWell(t.core, t'.core, wire, hash, p)
  {
    var (t', p) := S.ProcessCreate(t, r, b, hash(b), c);
    ProcessCreateIs(t, r, b, hash(b), c);
    CreateResultServes(t.core, t'.core, p, wire, hash, r, b, c.now);
  }

  predicate ChangeResult(core: S.Core, core': S.Core, p: S.Processed, r: S.Request, action: S.Action, id: string,
                         now: int) {
    && (core' == core || (id in core.activations && core' == S.Changed(core, r, action, core.activations[id], now)))
    && (p.Answered? ==> !p.reply.Shown? && (p.reply.Receipted? ==> !p.reply.receipt.operation.CreateOp?))
  }

  lemma ProcessChangeIs(t: S.Tables, r: S.Request, action: S.Action, id: string, c: S.Circumstances)
    ensures var (t', p) := S.ProcessChange(t, r, action, id, c); ChangeResult(t.core, t'.core, p, r, action, id, c.now)
  {
  }

  lemma ChangeResultServes(core: S.Core, core': S.Core, p: S.Processed, wire: Wire, hash: S.BodyHash,
                           r: S.Request, action: S.Action, id: string, now: int)
    requires CoreOk(core, wire, hash) && ChangeResult(core, core', p, r, action, id, now)
    ensures CoreOk(core', wire, hash) && ServedWell(core, core', wire, hash, p)
  {
    if core' != core { ChangedKeeps(core, wire, hash, r, action, id, now); }
  }

  lemma ChangeServes(t: S.Tables, wire: Wire, hash: S.BodyHash, r: S.Request, action: S.Action, id: string,
                     c: S.Circumstances)
    requires CoreOk(t.core, wire, hash)
    ensures var (t', p) := S.ProcessChange(t, r, action, id, c);
            CoreOk(t'.core, wire, hash) && ServedWell(t.core, t'.core, wire, hash, p)
  {
    var (t', p) := S.ProcessChange(t, r, action, id, c);
    ProcessChangeIs(t, r, action, id, c);
    ChangeResultServes(t.core, t'.core, p, wire, hash, r, action, id, c.now);
  }

  /** The same of a whole request. */
  predicate HandledWell(core: S.Core, core': S.Core, wire: Wire, hash: S.BodyHash, reply: Option<S.Reply>) {
    && Extends(core, core')
    && (reply.Some? && reply.value.Receipted? ==> ReceiptOk(core', wire, hash, reply.value.receipt))
    && (reply.Some? && reply.value.Shown? ==> ViewOk(core', reply.value.view))
  }

  /** A registered or unregistered nonce changes nothing of what was processed. */
  lemma FinishedServes(core: S.Core, wire: Wire, hash: S.BodyHash, result: (S.Tables, S.Processed), r: S.Request,
                       now: int)
    requires ServedWell(core, result.0.core, wire, hash, result.1)
    ensures var (t', reply) := S.Finished(result, r, now);
            t'.core == result.0.core && HandledWell(core, t'.core, wire, hash, reply)
  {
  }

  lemma StatusServes(t: S.Tables, wire: Wire, hash: S.BodyHash, r: S.Request, c: S.Circumstances)
    requires CoreOk(t.core, wire, hash) && r.route.Status?
    ensures var (t', reply) := S.Routed(t, r, c, hash);
            t'.core == t.core && HandledWell(t.core, t'.core, wire, hash, reply)
  {
    if r.route.activationId in t.core.activations { assert ActivationOk(t.core, wire, hash, r.route.activationId); }
  }

  lemma RouteServes(t: S.Tables, wire: Wire, hash: S.BodyHash, r: S.Request, c: S.Circumstances)
    requires CoreOk(t.core, wire, hash) && Injective(hash)
    requires r.route.Create? && r.route.body.Some? ==>
               r.requestId in wire && wire[r.requestId].clientId == r.clientId && wire[r.requestId].body == r.route.body.value
    ensures var (t', reply) := S.Routed(t, r, c, hash);
            CoreOk(t'.core, wire, hash) && HandledWell(t.core, t'.core, wire, hash, reply)
  {
    match r.route {
      case Create(body) =>
        if body.Some? {
          CreateServes(t, wire, hash, r, body.value, c);
          FinishedServes(t.core, wire, hash, S.ProcessCreate(t, r, body.value, hash(body.value), c), r, c.now);
        }
      case Change(action, id) =>
        ChangeServes(t, wire, hash, r, action, id, c);
        FinishedServes(t.core, wire, hash, S.ProcessChange(t, r, action, id, c), r, c.now);
      case Status(_) => StatusServes(t, wire, hash, r, c);
      case NoRoute =>
    }
  }

  /** A request is turned away with nothing stored, or it reaches its route. */
  lemma HandleRefusesOrRoutes(t: S.Tables, r: S.Request, c: S.Circumstances, hash: S.BodyHash)
    ensures var (t', reply) := S.Handle(t, r, c, hash);
            || (t'.core == t.core && (reply.None? || reply.value.Refused?))
            || (t', reply) == S.Routed(t.(nonces := S.Pruned(t.nonces, c.now)), r, c, hash)
  {
  }

  lemma RefusalServes(core: S.Core, core': S.Core, wire: Wire, hash: S.BodyHash, reply: Option<S.Reply>)
    requires CoreOk(core, wire, hash) && core' == core && (reply.None? || reply.value.Refused?)
    ensures CoreOk(core', wire, hash) && HandledWell(core, core', wire, hash, reply)
  {
  }

  lemma HandleServes(t: S.Tables, wire: Wire, hash: S.BodyHash, r: S.Request, c: S.Circumstances)
    requires CoreOk(t.core, wire, hash) && Injective(hash)
    requires r.route.Create? && r.route.body.Some? ==>
               r.requestId in wire && wire[r.requestId].clientId == r.clientId && wire[r.requestId].body == r.route.body.value
    ensures var (t', reply) := S.Handle(t, r, c, hash);
            CoreOk(t'.core, wire, hash) && HandledWell(t.core, t'.core, wire, hash, reply)
  {
    var (t', reply) := S.Handle(t, r, c, hash);
    HandleRefusesOrRoutes(t, r, c, hash);
    if t'.core == t.core && (reply.None? || reply.value.Refused?) {
      RefusalServes(t.core, t'.core, wire, hash, reply);
    } else {
      RouteServes(t.(nonces := S.Pruned(t.nonces, c.now)), wire, hash, r, c);
    }
  }

  // ----- ARMA's side of the invariant -----

  /** The server holds an activation with this id for what the record is about. */
  predicate Backed(r: A.Record, core: S.Core) {
    && r.patchesActivationId.Some? && r.patchesActivationId.value in core.activations
    && var a := core.activations[r.patchesActivationId.value];
       a.orgId == r.patchesOrgId && a.capability == r.capability && a.bindingId == r.bindingId
  }

  ghost predicate Agreed(s: A.State, core: S.Core) {
    forall id :: id in s.activations && s.activations[id].status.Active? ==> Backed(s.activations[id], core)
  }

  predicate CallMatches(s: A.State, c: A.Call) {
    c.CreateCall? ==>
      c.id in s.activations
      && var r := s.activations[c.id];
         c.orgId == r.patchesOrgId && c.capability == r.capability && c.bindingId == r.bindingId
         && c.idempotencyKey == r.idempotencyKey
  }

  predicate OwnerMatches(s: A.State, q: Sent) {
    q.owner.Some? ==>
      q.owner.value in s.activations
      && var r := s.activations[q.owner.value];
         q.body == BodyOf(r.patchesOrgId, r.capability, r.bindingId, r.idempotencyKey)
  }

  ghost predicate SideOk(y: System) {
    && (forall c :: c in y.side.calls ==> CallMatches(y.side.store, c))
    && (forall q :: q in y.wire ==> OwnerMatches(y.side.store, y.wire[q]))
    && Agreed(y.side.store, y.tables.core)
  }

  predicate KeepsIntents(s: A.State, s': A.State) {
    forall id :: id in s.activations ==>
      id in s'.activations
      && var r, r' := s.activations[id], s'.activations[id];
         r'.patchesOrgId == r.patchesOrgId && r'.capability == r.capability && r'.bindingId == r.bindingId
         && r'.idempotencyKey == r.idempotencyKey
  }

  /** Whatever is active was so before, under the same server id. */
  predicate ActivatesNone(s: A.State, s': A.State) {
    forall id :: id in s'.activations && s'.activations[id].status.Active? ==>
      id in s.activations && s.activations[id].status.Active?
      && s'.activations[id].patchesActivationId == s.activations[id].patchesActivationId
  }

  /** A begun operation keeps every intent, activates nothing, and calls for what is on record. */
  predicate BeginsWell(s: A.State, result: (A.State, Option<A.Call>)) {
    && KeepsIntents(s, result.0) && ActivatesNone(s, result.0)
    && (result.1.Some? ==> CallMatches(result.0, result.1.value))
  }

  lemma BeginCreateBegins(s: A.State, id: string, fate: A.Fate)
    requires id in s.activations
    ensures BeginsWell(s, A.BeginCreate(s, id, fate))
  {
  }

  lemma ActivateBegins(s: A.State, disabled: bool, q: A.Intent, p: A.Preflight, stableKey: string,
                       newId: string, fate: A.Fate)
    requires newId !in s.activations
    ensures BeginsWell(s, A.Activate(s, disabled, q, p, stableKey, newId, fate))
  {
    match A.ActivateGate(s, disabled, q, p, stableKey) {
      case ResumeKey(id) => BeginCreateBegins(s, id, fate);
      case Fresh(key, patchesOrgId) => NewBegins(s, A.NewRecord(newId, key, q, patchesOrgId, A.Pending, None), fate);
      case _ =>
    }
  }

  lemma NewBegins(s: A.State, r: A.Record, fate: A.Fate)
    requires r.activationId !in s.activations && !r.status.Active?
    ensures BeginsWell(s, A.BeginCreate(A.Put(s, r), r.activationId, fate))
  {
  }

  lemma ReconcileBegins(s: A.State, id: string)
    ensures BeginsWell(s, A.BeginReconcile(s, id))
  {
  }

  lemma ThenBegins(s: A.State, s1: A.State, result: (A.State, Option<A.Call>))
    requires KeepsIntents(s, s1) && ActivatesNone(s, s1) && BeginsWell(s1, result)
    ensures BeginsWell(s, result)
  {
  }

  lemma MoveBegins(s: A.State, id: string, to: A.Status, reason: Option<string>)
    requires id in s.activations && !to.Active?
    ensures BeginsWell(s, (A.Moved(s, id, to, reason, None), None))
  {
  }

  lemma ResumeSentBegins(s: A.State, id: string)
    requires id in s.activations && s.activations[id].status.ActivationSent?
    ensures BeginsWell(s, A.Resume(s, id, A.Lives))
  {
    var s1 := A.Moved(s, id, A.ReconciliationRequired, Some("RESUME_AFTER_SEND"), None);
    MoveBegins(s, id, A.ReconciliationRequired, Some("RESUME_AFTER_SEND"));
    if AS.Truthy(s.activations[id].identityHint) {
      ReconcileBegins(s1, id);
      ThenBegins(s, s1, A.BeginReconcile(s1, id));
    } else {
      MoveBegins(s1, id, A.Quarantined, Some("NO_IDENTITY_AFTER_SEND"));
      ThenBegins(s, s1, (A.Moved(s1, id, A.Quarantined, Some("NO_IDENTITY_AFTER_SEND"), None), None));
    }
  }

  lemma ResumeBegins(s: A.State, id: string, fate: A.Fate)
    ensures BeginsWell(s, A.Resume(s, id, fate))
  {
    if id in s.activations && !A.Closed(s.activations[id].status) {
      if s.activations[id].status.ReconciliationRequired? { ReconcileBegins(s, id); }
      else if s.activations[id].status.ActivationSent? { ResumeSentBegins(s, id); }
      else { BeginCreateBegins(s, id, fate); }
    }
  }

  lemma SyncBegins(s: A.State, id: string)
    ensures BeginsWell(s, A.BeginSync(s, id))
  {
  }

  lemma LifecycleBegins(s: A.State, id: string, action: S.Action)
    ensures BeginsWell(s, A.BeginLifecycle(s, id, action))
  {
  }

  /** At most this record is newly active, and then under this server id. */
  predicate ActivatesOnly(s: A.State, s': A.State, id: string, serverId: string) {
    forall t :: t in s'.activations && s'.activations[t].status.Active? ==>
      t in s.activations
      && ((t == id && s'.activations[t].patchesActivationId == Some(serverId))
          || (s.activations[t].status.Active?
              && s'.activations[t].patchesActivationId == s.activations[t].patchesActivationId))
  }

  lemma CreateCompletes(s: A.State, id: string, firstRequestId: string, outcome: A.CreateOutcome)
    requires id in s.activations && (outcome.Verified? ==> outcome.activationId.Some?)
    ensures var s' := A.CompleteCreate(s, id, firstRequestId, outcome);
            && KeepsIntents(s, s')
            && (if outcome.Verified? then ActivatesOnly(s, s', id, outcome.activationId.value) else ActivatesNone(s, s'))
  {
  }

  /** A view activates only a record it matches. */
  predicate ShownMatches(s: A.State, id: string, answer: A.StatusOutcome)
    requires id in s.activations
  {
    answer.Shown? && A.SameIdentity(s.activations[id], answer.view)
  }

  lemma ReconcileCompletes(s: A.State, c: A.Call, answer: A.StatusOutcome, bound: nat, fate: A.Fate)
    requires c.ReconcileCall? && c.id in s.activations
    ensures var result := A.CompleteReconcile(s, c, answer, bound, fate);
            && KeepsIntents(s, result.0)
            && (result.1.Some? ==> CallMatches(result.0, result.1.value))
            && (if ShownMatches(s, c.id, answer) then ActivatesOnly(s, result.0, c.id, answer.view.activationId)
                else ActivatesNone(s, result.0))
  {
    if answer.NotFound? && c.attemptNo >= bound { BeginCreateBegins(A.Noted(s, c, A.ResolvedNotFound), c.id, fate); }
  }

  /** The two ways a synced record changes: another status that is not ACTIVE, or ACTIVE under a server id. */
  lemma StatusMoves(s: A.State, id: string, to: A.Status, reason: string)
    requires id in s.activations && !to.Active?
    ensures var s' := A.Moved(s, id, to, Some(reason), None); KeepsIntents(s, s') && ActivatesNone(s, s')
  {
  }

  lemma ServerIdActivates(s: A.State, id: string, serverId: string)
    requires id in s.activations
    ensures var s' := A.WithServerId(s, id, Some(serverId)); KeepsIntents(s, s') && ActivatesOnly(s, s', id, serverId)
  {
  }

  lemma SyncCompletes(s: A.State, c: A.Call, answer: A.StatusOutcome)
    requires c.SyncCall? && c.id in s.activations
    ensures var s' := A.CompleteSync(s, c, answer);
            && KeepsIntents(s, s')
            && (if ShownMatches(s, c.id, answer) then ActivatesOnly(s, s', c.id, answer.view.activationId)
                else ActivatesNone(s, s'))
  {
    if ShownMatches(s, c.id, answer) {
      match answer.view.status {
        case Active => if !c.statusBefore.Active? { ServerIdActivates(s, c.id, answer.view.activationId); }
        case Deactivated => StatusMoves(s, c.id, A.Deactivated, "STATUS_SYNCED_DEACTIVATED");
        case Revoked => StatusMoves(s, c.id, A.Revoked, "STATUS_SYNCED_REVOKED");
      }
    } else if answer.Shown? {
      StatusMoves(s, c.id, A.Quarantined, "STATUS_IDENTITY_MISMATCH");
    }
  }

  // ----- Every event keeps both -----

  /** ARMA moved on: intents kept, calls as recorded, and what became active is backed. */
  lemma SideMoves(y: System, side: AS.Side, hash: S.BodyHash)
    requires SideOk(y) && KeepsIntents(y.side.store, side.store)
    requires forall c :: c in side.calls ==> c in y.side.calls || CallMatches(side.store, c)
    requires Agreed(side.store, y.tables.core)
    ensures SideOk(y.(side := side))
  {
  }

  lemma StillAgreed(s: A.State, s': A.State, core: S.Core)
    requires Agreed(s, core) && KeepsIntents(s, s') && ActivatesNone(s, s')
    ensures Agreed(s', core)
  {
  }

  lemma NewlyAgreed(s: A.State, s': A.State, core: S.Core, id: string, serverId: string)
    requires Agreed(s, core) && KeepsIntents(s, s') && ActivatesOnly(s, s', id, serverId)
    requires id in s.activations && serverId in core.activations
    requires var a, r := core.activations[serverId], s.activations[id];
             a.orgId == r.patchesOrgId && a.capability == r.capability && a.bindingId == r.bindingId
    ensures Agreed(s', core)
  {
  }

  lemma BeginKeeps(y: System, result: (A.State, Option<A.Call>), dies: bool, hash: S.BodyHash)
    requires SideOk(y) && BeginsWell(y.side.store, result)
    ensures SideOk(y.(side := AS.Begun(y.side, result, dies)))
  {
  }

  lemma ReceiptBacks(y: System, c: A.Call, receipt: S.SignedReceipt, hash: S.BodyHash)
    requires SideOk(y) && ServerOk(y, hash) && receipt in y.receipts && receipt.operation.CreateOp?
    requires receipt.requestId in y.wire && y.wire[receipt.requestId].owner == Some(c.id)
    ensures c.id in y.side.store.activations && receipt.activationId in y.tables.core.activations
    ensures var a, r := y.tables.core.activations[receipt.activationId], y.side.store.activations[c.id];
            a.orgId == r.patchesOrgId && a.capability == r.capability && a.bindingId == r.bindingId
  {
  }

  lemma CreateDoneKeeps(y: System, m: AS.Move, receipt: Option<S.SignedReceipt>, hash: S.BodyHash)
    requires SideOk(y) && ServerOk(y, hash) && m.CreateDone? && AS.Possible(y.side, m) && Genuine(y, m, receipt)
    ensures SideOk(y.(side := AS.Moved(y.side, m)))
  {
    var s' := A.CompleteCreate(y.side.store, m.call.id, m.firstRequestId, m.outcome);
    CreateCompletes(y.side.store, m.call.id, m.firstRequestId, m.outcome);
    if m.outcome.Verified? {
      ReceiptBacks(y, m.call, receipt.value, hash);
      NewlyAgreed(y.side.store, s', y.tables.core, m.call.id, receipt.value.activationId);
    } else {
      StillAgreed(y.side.store, s', y.tables.core);
    }
    SideMoves(y, AS.Moved(y.side, m), hash);
  }

  /** A genuine view that matches the record backs it; one that does not activates nothing. */
  lemma ViewKeepsAgreed(y: System, s': A.State, id: string, answer: A.StatusOutcome, hash: S.BodyHash)
    requires SideOk(y) && ServerOk(y, hash) && (answer.Shown? ==> answer.view in y.views)
    requires id in y.side.store.activations && KeepsIntents(y.side.store, s')
    requires if ShownMatches(y.side.store, id, answer) then ActivatesOnly(y.side.store, s', id, answer.view.activationId)
             else ActivatesNone(y.side.store, s')
    ensures Agreed(s', y.tables.core)
  {
  }

  lemma ReconcileDoneKeeps(y: System, m: AS.Move, hash: S.BodyHash)
    requires SideOk(y) && ServerOk(y, hash) && m.ReconcileDone? && AS.Possible(y.side, m) && Genuine(y, m, None)
    ensures SideOk(y.(side := AS.Moved(y.side, m)))
  {
    var result := A.CompleteReconcile(y.side.store, m.call, m.answer, m.bound, m.fate);
    ReconcileCompletes(y.side.store, m.call, m.answer, m.bound, m.fate);
    ViewKeepsAgreed(y, result.0, m.call.id, m.answer, hash);
    SideMoves(y, AS.Moved(y.side, m), hash);
  }

  lemma SyncDoneKeeps(y: System, m: AS.Move, hash: S.BodyHash)
    requires SideOk(y) && ServerOk(y, hash) && m.SyncDone? && AS.Possible(y.side, m) && Genuine(y, m, None)
    ensures SideOk(y.(side := AS.Moved(y.side, m)))
  {
    SyncCompletes(y.side.store, m.call, m.answer);
    ViewKeepsAgreed(y, A.CompleteSync(y.side.store, m.call, m.answer), m.call.id, m.answer, hash);
    SideMoves(y, AS.Moved(y.side, m), hash);
  }

  lemma LifecycleDoneKeeps(y: System, m: AS.Move, hash: S.BodyHash)
    requires SideOk(y) && m.LifecycleDone? && AS.Possible(y.side, m)
    ensures SideOk(y.(side := AS.Moved(y.side, m)))
  {
  }

  lemma BeginMoveKeeps(y: System, m: AS.Move, hash: S.BodyHash)
    requires SideOk(y) && AS.Possible(y.side, m)
    requires m.DoActivate? || m.DoResume? || m.DoReconcile? || m.DoSync? || m.DoLifecycle? || m.Crash?
    ensures SideOk(y.(side := AS.Moved(y.side, m)))
  {
    var s := y.side.store;
    match m {
      case DoActivate(disabled, q, p, stableKey, newId, fate) =>
        ActivateBegins(s, disabled, q, p, stableKey, newId, fate);
        BeginKeeps(y, A.Activate(s, disabled, q, p, stableKey, newId, fate), !fate.Lives?, hash);
      case DoResume(id, fate) =>
        ResumeBegins(s, id, fate);
        BeginKeeps(y, A.Resume(s, id, fate), !fate.Lives?, hash);
      case DoReconcile(id) =>
        ReconcileBegins(s, id);
        BeginKeeps(y, A.BeginReconcile(s, id), false, hash);
      case DoSync(id) =>
        SyncBegins(s, id);
        BeginKeeps(y, A.BeginSync(s, id), false, hash);
      case DoLifecycle(id, action) =>
        LifecycleBegins(s, id, action);
        BeginKeeps(y, A.BeginLifecycle(s, id, action), false, hash);
      case Crash => BeginKeeps(y, (s, None), true, hash);
    }
  }

  lemma LocalKeeps(y: System, m: AS.Move, receipt: Option<S.SignedReceipt>, hash: S.BodyHash)
    requires SideOk(y) && ServerOk(y, hash) && Genuine(y, m, receipt)
    ensures SideOk(y.(side := AS.Moved(y.side, m)))
  {
    if !AS.Possible(y.side, m) {
      assert y.(side := AS.Moved(y.side, m)) == y;
    } else {
      match m {
        case CreateDone(_, _, _) => CreateDoneKeeps(y, m, receipt, hash);
        case ReconcileDone(_, _, _, _) => ReconcileDoneKeeps(y, m, hash);
        case SyncDone(_, _) => SyncDoneKeeps(y, m, hash);
        case LifecycleDone(_, _) => LifecycleDoneKeeps(y, m, hash);
        case _ => BeginMoveKeeps(y, m, hash);
      }
    }
  }

  /** A new request on the wire leaves all else as it is. */
  lemma WireGrows(core: S.Core, wire: Wire, hash: S.BodyHash, id: string, q: Sent)
    requires CoreOk(core, wire, hash) && id !in wire
    ensures CoreOk(core, wire[id := q], hash)
  {
    var wire' := wire[id := q];
    forall a | a in core.activations ensures ActivationOk(core, wire', hash, a) { assert ActivationOk(core, wire, hash, a); }
    forall k | k in core.idempotency ensures BindingOk(core, wire', k) { assert BindingOk(core, wire, k); }
  }

  lemma WireKeeps(y: System, id: string, q: Sent, hash: S.BodyHash)
    requires SideOk(y) && ServerOk(y, hash) && id !in y.wire && OwnerMatches(y.side.store, q)
    ensures var y' := y.(wire := y.wire[id := q]); SideOk(y') && ServerOk(y', hash)
  {
    var y' := y.(wire := y.wire[id := q]);
    var core := y.tables.core;
    WireGrows(core, y.wire, hash, id, q);
    forall r | r in y'.receipts ensures ReceiptOk(core, y'.wire, hash, r) { assert ReceiptOk(core, y.wire, hash, r); }
  }

  lemma ServedKeeps(y: System, result: (S.Tables, Option<S.Reply>), hash: S.BodyHash)
    requires SideOk(y) && ServerOk(y, hash) && CoreOk(result.0.core, y.wire, hash)
    requires HandledWell(y.tables.core, result.0.core, y.wire, hash, result.1)
    ensures SideOk(Served(y, result)) && ServerOk(Served(y, result), hash)
  {
    var y' := Served(y, result);
    forall r | r in y'.receipts
      ensures ReceiptOk(result.0.core, y.wire, hash, r)
    {
      if r in y.receipts { assert ReceiptOk(y.tables.core, y.wire, hash, r); }
    }
    forall v | v in y'.views
      ensures ViewOk(result.0.core, v)
    {
      if v in y.views { assert ViewOk(y.tables.core, v); }
    }
  }

  ghost predicate Ok(y: System, hash: S.BodyHash) {
    SideOk(y) && ServerOk(y, hash)
  }

  lemma NextKeeps(y: System, e: Event, hash: S.BodyHash)
    requires Ok(y, hash) && Injective(hash)
    ensures Ok(Next(y, e, hash), hash)
  {
    if Enabled(y, e) {
      match e {
        case Local(m, receipt) => LocalKeeps(y, m, receipt, hash);
        case Emit(id, c, clientId, nonce, timestamp) =>
          assert CallMatches(y.side.store, c);
          WireKeeps(y, id, Attempt(c, clientId, nonce, timestamp), hash);
        case Foreign(id, clientId, body, nonce, timestamp) =>
          WireKeeps(y, id, Sent(clientId, body, None, nonce, timestamp), hash);
        case Serve(r, c) =>
          HandleServes(y.tables, y.wire, hash, r, c);
          ServedKeeps(y, S.Handle(y.tables, r, c, hash), hash);
      }
    }
  }

  lemma {:induction false} RunKeeps(y: System, events: seq<Event>, hash: S.BodyHash)
    requires Ok(y, hash) && Injective(hash)
    ensures Ok(Run(y, events, hash), hash)
    decreases |events|
  {
    if events != [] {
      NextKeeps(y, events[0], hash);
      RunKeeps(Next(y, events[0], hash), events[1..], hash);
    }
  }

  // ----- The results -----

  ghost predicate Reachable(y: System, hash: S.BodyHash) {
    exists events :: y == Run(START, events, hash)
  }

  lemma ReachableIsOk(y: System, hash: S.BodyHash)
    requires Reachable(y, hash) && Injective(hash)
    ensures Ok(y, hash)
  {
    var events :| y == Run(START, events, hash);
    RunKeeps(START, events, hash);
  }

  /** The client and key an activation was created under. */
  function OriginOf(y: System, id: string): (string, string)
    requires id in y.tables.core.activations && RequestIdOf(id) in y.wire
  {
    (y.wire[RequestIdOf(id)].clientId, y.tables.core.activations[id].idempotencyKey)
  }

  /**
   At most once: under any retries, repeats, late deliveries and reconciliations, each client and
   idempotency key has at most one activation on the server.
   */
  lemma AtMostOneActivation(y: System, hash: S.BodyHash, a: string, b: string)
    requires Reachable(y, hash) && Injective(hash)
    requires a in y.tables.core.activations && b in y.tables.core.activations
    ensures RequestIdOf(a) in y.wire && RequestIdOf(b) in y.wire
    ensures OriginOf(y, a) == OriginOf(y, b) ==> a == b
  {
    ReachableIsOk(y, hash);
    assert ActivationOk(y.tables.core, y.wire, hash, a) && ActivationOk(y.tables.core, y.wire, hash, b);
  }

  /**
   Agreement: an ARMA record in ACTIVE carries the id of an activation the server holds, for the
   same organisation, capability and binding.
   */
  lemma ActiveMeansActivated(y: System, hash: S.BodyHash, id: string)
    requires Reachable(y, hash) && Injective(hash)
    requires id in y.side.store.activations && y.side.store.activations[id].status.Active?
    ensures Backed(y.side.store.activations[id], y.tables.core)
  {
    ReachableIsOk(y, hash);
  }
}
