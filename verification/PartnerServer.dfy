/**
 The PATCHES partner server and its store (patches/lib/server.ts, patches/lib/store.ts).

 `Handle` says what one request does to the tables; the methods of PartnerServer do it write by
 write, inside snapshot-and-restore transactions. Policy tables are not part of this model: what
 they say of a request is a parameter, like authentication and the rate limiter's answer.
 */
module PartnerServer {
  import opened Wrappers

  const MAX_CLOCK_SKEW_MS := 5 * 60 * 1000
  const NONCE_VALIDITY_WINDOW_MS := 2 * MAX_CLOCK_SKEW_MS

  // ----- Tables -----

  datatype ActivationStatus = Active | Deactivated | Revoked

  datatype Activation = Activation(activationId: string, orgId: string, capability: string,
                                   bindingId: string, partnerId: string, status: ActivationStatus,
                                   activatedAt: int, deactivatedAt: Option<int>, revokedAt: Option<int>,
                                   lastRequestId: string, idempotencyKey: string, payloadHash: string)

  datatype Binding = Binding(requestHash: string, activationId: string, requestId: string, at: int)

  datatype Operation = CreateOp | DeactivateOp | RevokeOp

  datatype Receipt = Receipt(requestId: string, clientId: string, operation: Operation,
                             activationId: string, orgId: string, capability: string,
                             payloadHash: Option<string>, at: int)

  datatype Event = Event(requestId: string, operation: Operation, activationId: string, orgId: string,
                         capability: string, at: int, payloadDigest: string)

  datatype AuditEntry = AuditEntry(clientId: string, requestId: string, operation: string, code: string)
  datatype AuditEvent = AuditEvent(sequence: nat, entry: AuditEntry)

  datatype NonceRecord = NonceRecord(firstSeenAt: int, requestId: string)

  /** What an operation is remembered by. Keys are (client, idempotency key): client ids have no colon. */
  datatype Core = Core(activations: map<string, Activation>, idempotency: map<(string, string), Binding>,
                       receipts: map<string, Receipt>, events: seq<Event>)

  datatype Tables = Tables(core: Core, nonces: map<(string, string), NonceRecord>, audit: seq<AuditEvent>)

  const EMPTY := Tables(Core(map[], map[], map[], []), map[], [])

  datatype FailPoints = FailPoints(persistActivation: bool, persistReceipt: bool, eventWrite: bool, auditWrite: bool)

  // ----- Requests and responses -----

  /** A create body; None where the field is not a string. `rest` is everything else in it. */
  datatype Body = Body(orgId: Option<string>, capability: Option<string>, bindingId: Option<string>,
                       idempotencyKey: Option<string>, rest: string)

  type BodyHash = Body -> string

  datatype Action = Deactivate | Revoke

  datatype Route =
    | Create(body: Option<Body>)          // None: the payload is not a JSON object
    | Change(action: Action, activationId: string)
    | Status(activationId: string)
    | NoRoute

  datatype Request = Request(route: Route, clientId: string, partnerId: string, requestId: string, nonce: string)

  datatype Refusal = Refusal(status: nat, code: string)

  /** What the tables outside this model, the clock and the fail points say of one request. */
  datatype Circumstances = Circumstances(disabled: bool, unreadable: Option<Refusal>, earlyAuth: Option<string>,
                                         lateAuth: Option<string>, throttled: Option<int>,
                                         policy: Option<string>, downstreamOk: bool, fp: FailPoints, now: int)

  /** A signed response body. */
  datatype SignedReceipt = SignedReceipt(receiptId: string, requestId: string, clientId: string,
                                         operation: Operation, at: int, activationId: string,
                                         orgId: string, capability: string, duplicate: bool)

  datatype Reply =
    | Refused(status: nat, error: string)
    | Receipted(receipt: SignedReceipt)
    | Shown(view: Activation)

  /** A processed POST: answered, or an error escaped the handler and nothing is sent. */
  datatype Processed = Answered(reply: Reply, registerNonce: bool) | Thrown

  function ActivationIdFor(requestId: string): string {
    "ACT-" + requestId
  }

  function ReceiptIdFor(operation: Operation, requestId: string): string {
    (match operation case CreateOp => "RCP-ACT-" case DeactivateOp => "RCP-DEACTIVATE-" case RevokeOp => "RCP-REVOKE-")
    + requestId
  }

  function Truthy(s: Option<string>): bool {
    s.Some? && s.value != ""
  }

  // ----- Processing, on whole tables -----

  function Audited(t: Tables, entry: AuditEntry): Tables {
    t.(audit := t.audit + [AuditEvent(|t.audit| + 1, entry)])
  }

  /** An audit write outside any guard: if it fails, the request is not answered at all. */
  function AuditedOr(t: Tables, fp: FailPoints, entry: AuditEntry, answer: Processed): (Tables, Processed) {
    if fp.auditWrite then (t, Thrown) else (Audited(t, entry), answer)
  }

  predicate AnyWriteFails(fp: FailPoints) {
    fp.persistActivation || fp.persistReceipt || fp.eventWrite || fp.auditWrite
  }

  function PersistenceFailed(t: Tables, fp: FailPoints, clientId: string, requestId: string): (Tables, Processed) {
    AuditedOr(t, fp, AuditEntry(clientId, requestId, "activation.create", "PARTNER_TRANSACTION_FAILED"),
              Answered(Refused(500, "PARTNER_PERSISTENCE_FAILED"), false))
  }

  predicate Complete(b: Body) {
    Truthy(b.orgId) && Truthy(b.capability) && Truthy(b.bindingId) && Truthy(b.idempotencyKey)
  }

  /** The tables with the whole of one create in them. */
  function Created(core: Core, r: Request, b: Body, hash: string, now: int): Core
    requires Complete(b)
  {
    var id := ActivationIdFor(r.requestId);
    Core(core.activations[id := Activation(id, b.orgId.value, b.capability.value, b.bindingId.value, r.partnerId,
                                           Active, now, None, None, r.requestId, b.idempotencyKey.value, hash)],
         core.idempotency[(r.clientId, b.idempotencyKey.value) := Binding(hash, id, r.requestId, now)],
         core.receipts[ReceiptIdFor(CreateOp, r.requestId) :=
                         Receipt(r.requestId, r.clientId, CreateOp, id, b.orgId.value, b.capability.value, Some(hash), now)],
         core.events + [Event(r.requestId, CreateOp, id, b.orgId.value, b.capability.value, now, hash)])
  }

  function CreateReceipt(r: Request, b: Body, receiptId: string, activationId: string, duplicate: bool,
                         now: int): SignedReceipt
    requires Complete(b)
  {
    SignedReceipt(receiptId, r.requestId, r.clientId, CreateOp, now, activationId, b.orgId.value, b.capability.value, duplicate)
  }

  /** What a create comes to before the downstream service is called: an answer, or the call. */
  datatype Resolution = Settled(tables: Tables, answer: Processed) | Fresh

  function ResolveCreate(t: Tables, r: Request, b: Body, hash: string, c: Circumstances): (res: Resolution)
    ensures res.Fresh? ==> Complete(b) && (r.clientId, b.idempotencyKey.value) !in t.core.idempotency
  {
    if !Complete(b) then Settled(t, Answered(Refused(400, "ACTIVATION_INPUT_MISSING"), false))
    else if c.policy.Some? then Settled(t, Answered(Refused(403, c.policy.value), true))
    else
      var key := (r.clientId, b.idempotencyKey.value);
      if key !in t.core.idempotency then Fresh
      else
        var existing := t.core.idempotency[key];
        var (t', answer) :=
          if existing.requestHash != hash then
            AuditedOr(t, c.fp, AuditEntry(r.clientId, r.requestId, "activation.create", "IDEMPOTENCY_CONFLICT"),
                      Answered(Refused(409, "IDEMPOTENCY_KEY_CONFLICT"), true))
          else
            AuditedOr(t, c.fp, AuditEntry(r.clientId, r.requestId, "activation.create", "DUPLICATE_DELIVERY_COLLAPSED"),
                      Answered(Receipted(CreateReceipt(r, b, "RCP-DUP-" + r.requestId, existing.activationId, true, c.now)), true));
        Settled(t', answer)
  }

  /** What it comes to once the downstream service has answered. The key is not looked up again. */
  function FinishCreate(t: Tables, r: Request, b: Body, hash: string, downstreamOk: bool, fp: FailPoints, now: int):
    (Tables, Processed)
    requires Complete(b)
  {
    if !downstreamOk then
      AuditedOr(t, fp, AuditEntry(r.clientId, r.requestId, "activation.create", "DOWNSTREAM_UNAVAILABLE"),
                Answered(Refused(503, "DOWNSTREAM_UNAVAILABLE"), true))
    else if AnyWriteFails(fp) then PersistenceFailed(t, fp, r.clientId, r.requestId)
    else
      (Audited(t.(core := Created(t.core, r, b, hash, now)),
               AuditEntry(r.clientId, r.requestId, "activation.create", "ACTIVATION_CREATED")),
       Answered(Receipted(CreateReceipt(r, b, ReceiptIdFor(CreateOp, r.requestId), ActivationIdFor(r.requestId),
                                        false, now)), true))
  }

  /** A create with nothing in between. */
  function ProcessCreate(t: Tables, r: Request, b: Body, hash: string, c: Circumstances): (Tables, Processed) {
    match ResolveCreate(t, r, b, hash, c)
    case Settled(t', answer) => (t', answer)
    case Fresh => FinishCreate(t, r, b, hash, c.downstreamOk, c.fp, c.now)
  }

  function OperationOf(action: Action): Operation {
    if action.Revoke? then RevokeOp else DeactivateOp
  }

  function StatusAfter(action: Action): ActivationStatus {
    if action.Revoke? then Revoked else Deactivated
  }

  function LabelOf(action: Action): string {
    if action.Revoke? then "activation.revoke" else "activation.deactivate"
  }

  function Changed(core: Core, r: Request, action: Action, a: Activation, now: int): Core {
    var op := OperationOf(action);
    Core(core.activations[a.activationId := a.(status := StatusAfter(action),
                                               deactivatedAt := if action.Deactivate? then Some(now) else a.deactivatedAt,
                                               revokedAt := if action.Revoke? then Some(now) else a.revokedAt,
                                               lastRequestId := r.requestId)],
         core.idempotency,
         core.receipts[ReceiptIdFor(op, r.requestId) :=
                         Receipt(r.requestId, r.clientId, op, a.activationId, a.orgId, a.capability, None, now)],
         core.events + [Event(r.requestId, op, a.activationId, a.orgId, a.capability, now, a.payloadHash)])
  }

  function ProcessChange(t: Tables, r: Request, action: Action, id: string, c: Circumstances): (Tables, Processed) {
    if id !in t.core.activations then (t, Answered(Refused(404, "ACTIVATION_UNKNOWN"), true))
    else if c.policy.Some? then (t, Answered(Refused(403, c.policy.value), true))
    else
      var a := t.core.activations[id];
      var op := OperationOf(action);
      var answer := Answered(Receipted(SignedReceipt(ReceiptIdFor(op, r.requestId), r.requestId, r.clientId, op, c.now,
                                                     id, a.orgId, a.capability, false)), true);
      if a.status == StatusAfter(action) then (t, answer)
      else if a.status.Revoked? then (t, Answered(Refused(409, "ACTIVATION_REVOKED"), true))
      else if AnyWriteFails(c.fp) then PersistenceFailed(t, c.fp, r.clientId, r.requestId)
      else
        (Audited(t.(core := Changed(t.core, r, action, a, c.now)),
                 AuditEntry(r.clientId, r.requestId, LabelOf(action), "ACTIVATION_CHANGED")),
         answer)
  }

  // ----- The handler, on whole tables -----

  function Pruned(nonces: map<(string, string), NonceRecord>, now: int): map<(string, string), NonceRecord> {
    map k | k in nonces && nonces[k].firstSeenAt >= now - NONCE_VALIDITY_WINDOW_MS :: nonces[k]
  }

  function Registered(t: Tables, r: Request, now: int): Tables {
    var k := (r.clientId, r.nonce);
    if k in t.nonces then t else t.(nonces := t.nonces[k := NonceRecord(now, r.requestId)])
  }

  function RouteLabel(route: Route): string {
    match route
    case Create(_) => "activation.create"
    case Change(action, _) => LabelOf(action)
    case Status(_) => "activation.status"
    case NoRoute => ""
  }

  /** An audited refusal before any route logic; None when even that could not be written. */
  function Rejected(t: Tables, fp: FailPoints, clientId: string, r: Request, code: string, reply: Reply):
    (Tables, Option<Reply>)
  {
    if fp.auditWrite then (t, None)
    else (Audited(t, AuditEntry(clientId, r.requestId, RouteLabel(r.route), code)), Some(reply))
  }

  function Finished(result: (Tables, Processed), r: Request, now: int): (Tables, Option<Reply>) {
    match result.1
    case Thrown => (result.0, None)
    case Answered(reply, register) => (if register then Registered(result.0, r, now) else result.0, Some(reply))
  }

  function Routed(t: Tables, r: Request, c: Circumstances, hash: BodyHash): (Tables, Option<Reply>) {
    match r.route
    case Status(id) =>
      (t, Some(if id !in t.core.activations then Refused(404, "ACTIVATION_UNKNOWN")
               else if c.policy.Some? then Refused(403, c.policy.value)
               else Shown(t.core.activations[id])))
    case Create(body) =>
      if body.None? then (t, Some(Refused(400, "MALFORMED_PAYLOAD")))
      else Finished(ProcessCreate(t, r, body.value, hash(body.value), c), r, c.now)
    case Change(action, id) => Finished(ProcessChange(t, r, action, id, c), r, c.now)
    case NoRoute => (t, Some(Refused(404, "NOT_FOUND")))
  }

  predicate Replayed(t: Tables, r: Request, now: int) {
    (r.clientId, r.nonce) in t.nonces && now - t.nonces[(r.clientId, r.nonce)].firstSeenAt <= NONCE_VALIDITY_WINDOW_MS
  }

  /** Kill switch, route, body, authentication, rate limit, route logic: in this order. */
  function Handle(t: Tables, r: Request, c: Circumstances, hash: BodyHash): (Tables, Option<Reply>) {
    if c.disabled then (t, Some(Refused(503, "PARTNER_API_DISABLED")))
    else if r.route.NoRoute? then (t, Some(Refused(404, "NOT_FOUND")))
    else if !r.route.Status? && c.unreadable.Some? then
      (t, Some(Refused(c.unreadable.value.status, c.unreadable.value.code)))
    else if c.earlyAuth.Some? then
      Rejected(t, c.fp, "unknown", r, c.earlyAuth.value, Refused(401, c.earlyAuth.value))
    else if Replayed(t, r, c.now) then
      Rejected(t, c.fp, "unknown", r, "NONCE_REPLAYED", Refused(409, "NONCE_REPLAYED"))
    else
      var t' := t.(nonces := Pruned(t.nonces, c.now));
      if c.lateAuth.Some? then Rejected(t', c.fp, "unknown", r, c.lateAuth.value, Refused(401, c.lateAuth.value))
      else if c.throttled.Some? then Rejected(t', c.fp, r.clientId, r, "RATE_LIMITED", Refused(429, "RATE_LIMITED"))
      else Routed(t', r, c, hash)
  }

  // ----- The store -----

  class PartnerStore {
    var activations: map<string, Activation>
    var idempotency: map<(string, string), Binding>
    var receipts: map<string, Receipt>
    var events: seq<Event>
    var nonces: map<(string, string), NonceRecord>
    var audit: seq<AuditEvent>
    var auditSequence: nat
    const failPoints: FailPoints

    ghost predicate Valid()
      reads this
    {
      auditSequence == |audit|
    }

    function Contents(): Tables
      reads this
    {
      Tables(Core(activations, idempotency, receipts, events), nonces, audit)
    }

    constructor (failPoints: FailPoints)
      ensures Valid() && Contents() == EMPTY && this.failPoints == failPoints
    {
      activations, idempotency, receipts, events := map[], map[], map[], [];
      nonces, audit, auditSequence := map[], [], 0;
      this.failPoints := failPoints;
    }

    /** Puts every table back, as the end of an aborted transaction does. */
    method Restore(snapshot: Tables)
      modifies this
      ensures Valid() && Contents() == snapshot
    {
      activations, idempotency := snapshot.core.activations, snapshot.core.idempotency;
      receipts, events := snapshot.core.receipts, snapshot.core.events;
      nonces, audit, auditSequence := snapshot.nonces, snapshot.audit, |snapshot.audit|;
    }

    /** Each write reports whether its fail point let it through. */
    method PutActivation(a: Activation) returns (ok: bool)
      modifies this`activations
      ensures ok == !failPoints.persistActivation
      ensures activations == if ok then old(activations)[a.activationId := a] else old(activations)
    {
      if failPoints.persistActivation { return false; }
      activations := activations[a.activationId := a];
      return true;
    }

    method PutReceipt(id: string, r: Receipt) returns (ok: bool)
      modifies this`receipts
      ensures ok == !failPoints.persistReceipt
      ensures receipts == if ok then old(receipts)[id := r] else old(receipts)
    {
      if failPoints.persistReceipt { return false; }
      receipts := receipts[id := r];
      return true;
    }

    method PutIdempotency(clientId: string, key: string, b: Binding)
      modifies this`idempotency
      ensures idempotency == old(idempotency)[(clientId, key) := b]
    {
      idempotency := idempotency[(clientId, key) := b];
    }

    method AppendEvent(e: Event) returns (ok: bool)
      modifies this`events
      ensures ok == !failPoints.eventWrite
      ensures events == if ok then old(events) + [e] else old(events)
    {
      if failPoints.eventWrite { return false; }
      events := events + [e];
      return true;
    }

    method AppendAudit(entry: AuditEntry) returns (ok: bool)
      requires Valid()
      modifies this`audit, this`auditSequence
      ensures Valid() && ok == !failPoints.auditWrite
      ensures Contents() == if ok then Audited(old(Contents()), entry) else old(Contents())
    {
      if failPoints.auditWrite { return false; }
      auditSequence := auditSequence + 1;
      audit := audit + [AuditEvent(auditSequence, entry)];
      return true;
    }

    method RegisterNonce(r: Request, now: int)
      modifies this`nonces
      ensures Contents() == Registered(old(Contents()), r, now)
    {
      if (r.clientId, r.nonce) in nonces { return; }
      nonces := nonces[(r.clientId, r.nonce) := NonceRecord(now, r.requestId)];
    }

    method PruneNonces(now: int)
      modifies this`nonces
      ensures nonces == Pruned(old(nonces), now)
    {
      var pending := nonces.Keys;
      while pending != {}
        invariant pending <= old(nonces).Keys
        invariant forall k :: k in nonces <==> k in old(nonces) && (k in pending || k in Pruned(old(nonces), now))
        invariant forall k :: k in nonces ==> nonces[k] == old(nonces)[k]
        decreases |pending|
      {
        var k :| k in pending;
        if nonces[k].firstSeenAt < now - NONCE_VALIDITY_WINDOW_MS { nonces := nonces - {k}; }
        pending := pending - {k};
      }
    }
  }

  // ----- Processing, write by write -----

  /** The body of the create transaction; false as soon as a write fails. */
  method WriteCreate(store: PartnerStore, r: Request, b: Body, hash: string, now: int) returns (ok: bool)
    requires store.Valid() && Complete(b)
    modifies store
    ensures ok <==> !AnyWriteFails(store.failPoints)
    ensures ok ==> store.Valid()
                   && store.Contents() == Audited(old(store.Contents()).(core := Created(old(store.Contents()).core, r, b, hash, now)),
                                                  AuditEntry(r.clientId, r.requestId, "activation.create", "ACTIVATION_CREATED"))
  {
    var id := ActivationIdFor(r.requestId);
    ok := store.PutActivation(Activation(id, b.orgId.value, b.capability.value, b.bindingId.value, r.partnerId, Active,
                                         now, None, None, r.requestId, b.idempotencyKey.value, hash));
    if !ok { return; }
    ok := store.PutReceipt(ReceiptIdFor(CreateOp, r.requestId),
                           Receipt(r.requestId, r.clientId, CreateOp, id, b.orgId.value, b.capability.value, Some(hash), now));
    if !ok { return; }
    store.PutIdempotency(r.clientId, b.idempotencyKey.value, Binding(hash, id, r.requestId, now));
    ok := store.AppendEvent(Event(r.requestId, CreateOp, id, b.orgId.value, b.capability.value, now, hash));
    if !ok { return; }
    ok := store.AppendAudit(AuditEntry(r.clientId, r.requestId, "activation.create", "ACTIVATION_CREATED"));
  }

  method RecordPersistenceFailure(store: PartnerStore, clientId: string, requestId: string) returns (p: Processed)
    requires store.Valid()
    modifies store
    ensures store.Valid()
    ensures (store.Contents(), p) == PersistenceFailed(old(store.Contents()), store.failPoints, clientId, requestId)
  {
    var snapshot := store.Contents();
    var ok := store.AppendAudit(AuditEntry(clientId, requestId, "activation.create", "PARTNER_TRANSACTION_FAILED"));
    if !ok {
      store.Restore(snapshot);
      return Thrown;
    }
    return Answered(Refused(500, "PARTNER_PERSISTENCE_FAILED"), false);
  }

  method AuditThen(store: PartnerStore, entry: AuditEntry, answer: Processed) returns (p: Processed)
    requires store.Valid()
    modifies store
    ensures store.Valid()
    ensures (store.Contents(), p) == AuditedOr(old(store.Contents()), store.failPoints, entry, answer)
  {
    var ok := store.AppendAudit(entry);
    return if ok then answer else Thrown;
  }

  /** A create up to the downstream call; None: the call is made. */
  method ResolveActivation(store: PartnerStore, r: Request, b: Body, hash: string, c: Circumstances)
    returns (answer: Option<Processed>)
    requires store.Valid() && store.failPoints == c.fp
    modifies store
    ensures store.Valid()
    ensures match ResolveCreate(old(store.Contents()), r, b, hash, c)
            case Fresh => answer.None? && store.Contents() == old(store.Contents())
            case Settled(t, p) => answer == Some(p) && store.Contents() == t
  {
    if !Complete(b) { return Some(Answered(Refused(400, "ACTIVATION_INPUT_MISSING"), false)); }
    if c.policy.Some? { return Some(Answered(Refused(403, c.policy.value), true)); }
    var key := (r.clientId, b.idempotencyKey.value);
    if key !in store.idempotency { return None; }
    var existing := store.idempotency[key];
    var p: Processed;
    if existing.requestHash != hash {
      p := AuditThen(store, AuditEntry(r.clientId, r.requestId, "activation.create", "IDEMPOTENCY_CONFLICT"),
                     Answered(Refused(409, "IDEMPOTENCY_KEY_CONFLICT"), true));
    } else {
      p := AuditThen(store, AuditEntry(r.clientId, r.requestId, "activation.create", "DUPLICATE_DELIVERY_COLLAPSED"),
                     Answered(Receipted(CreateReceipt(r, b, "RCP-DUP-" + r.requestId, existing.activationId, true, c.now)), true));
    }
    return Some(p);
  }

  /** A create from the downstream service's answer on, whatever the tables have become by then. */
  method CreateFresh(store: PartnerStore, r: Request, b: Body, hash: string, downstreamOk: bool, now: int)
    returns (p: Processed)
    requires store.Valid() && Complete(b)
    modifies store
    ensures store.Valid()
    ensures (store.Contents(), p) == FinishCreate(old(store.Contents()), r, b, hash, downstreamOk, store.failPoints, now)
  {
    if !downstreamOk {
      p := AuditThen(store, AuditEntry(r.clientId, r.requestId, "activation.create", "DOWNSTREAM_UNAVAILABLE"),
                     Answered(Refused(503, "DOWNSTREAM_UNAVAILABLE"), true));
      return;
    }
    var snapshot := store.Contents();
    var ok := WriteCreate(store, r, b, hash, now);
    if !ok {
      store.Restore(snapshot);
      p := RecordPersistenceFailure(store, r.clientId, r.requestId);
      return;
    }
    return Answered(Receipted(CreateReceipt(r, b, ReceiptIdFor(CreateOp, r.requestId), ActivationIdFor(r.requestId),
                                            false, now)), true);
  }

  /** Both, with nothing in between. */
  method ProcessActivation(store: PartnerStore, r: Request, b: Body, hash: string,
                           c: Circumstances) returns (p: Processed)
    requires store.Valid() && store.failPoints == c.fp
    modifies store
    ensures store.Valid()
    ensures (store.Contents(), p) == ProcessCreate(old(store.Contents()), r, b, hash, c)
  {
    var answer := ResolveActivation(store, r, b, hash, c);
    if answer.Some? { return answer.value; }
    p := CreateFresh(store, r, b, hash, c.downstreamOk, c.now);
  }

  /** The body of the deactivate and revoke transactions. */
  method WriteChange(store: PartnerStore, r: Request, action: Action, a: Activation, now: int) returns (ok: bool)
    requires store.Valid()
    modifies store
    ensures ok <==> !AnyWriteFails(store.failPoints)
    ensures ok ==> store.Valid()
                   && store.Contents() == Audited(old(store.Contents()).(core := Changed(old(store.Contents()).core, r, action, a, now)),
                                                  AuditEntry(r.clientId, r.requestId, LabelOf(action), "ACTIVATION_CHANGED"))
  {
    var op := OperationOf(action);
    ok := store.PutActivation(a.(status := StatusAfter(action),
                                 deactivatedAt := if action.Deactivate? then Some(now) else a.deactivatedAt,
                                 revokedAt := if action.Revoke? then Some(now) else a.revokedAt,
                                 lastRequestId := r.requestId));
    if !ok { return; }
    ok := store.PutReceipt(ReceiptIdFor(op, r.requestId),
                           Receipt(r.requestId, r.clientId, op, a.activationId, a.orgId, a.capability, None, now));
    if !ok { return; }
    ok := store.AppendEvent(Event(r.requestId, op, a.activationId, a.orgId, a.capability, now, a.payloadHash));
    if !ok { return; }
    ok := store.AppendAudit(AuditEntry(r.clientId, r.requestId, LabelOf(action), "ACTIVATION_CHANGED"));
  }

  method ProcessStateChange(store: PartnerStore, r: Request, action: Action, id: string,
                            c: Circumstances) returns (p: Processed)
    requires store.Valid() && store.failPoints == c.fp
    modifies store
    ensures store.Valid()
    ensures (store.Contents(), p) == ProcessChange(old(store.Contents()), r, action, id, c)
  {
    if id !in store.activations { return Answered(Refused(404, "ACTIVATION_UNKNOWN"), true); }
    if c.policy.Some? { return Answered(Refused(403, c.policy.value), true); }
    var a := store.activations[id];
    var op := OperationOf(action);
    var answer := Answered(Receipted(SignedReceipt(ReceiptIdFor(op, r.requestId), r.requestId, r.clientId, op, c.now,
                                                   id, a.orgId, a.capability, false)), true);
    if action.Revoke? && a.status.Revoked? { return answer; }
    if action.Deactivate? && a.status.Deactivated? { return answer; }
    if a.status.Revoked? { return Answered(Refused(409, "ACTIVATION_REVOKED"), true); }
    var snapshot := store.Contents();
    var ok := WriteChange(store, r, action, a, c.now);
    if !ok {
      store.Restore(snapshot);
      p := RecordPersistenceFailure(store, r.clientId, r.requestId);
      return;
    }
    return answer;
  }

  method FinishPost(store: PartnerStore, r: Request, p: Processed, now: int) returns (reply: Option<Reply>)
    requires store.Valid()
    modifies store`nonces
    ensures store.Valid()
    ensures (store.Contents(), reply) == Finished((old(store.Contents()), p), r, now)
  {
    if p.Thrown? { return None; }
    if p.registerNonce { store.RegisterNonce(r, now); }
    return Some(p.reply);
  }

  method HandleRoute(store: PartnerStore, r: Request, c: Circumstances, hash: BodyHash) returns (reply: Option<Reply>)
    requires store.Valid() && store.failPoints == c.fp
    modifies store
    ensures store.Valid()
    ensures (store.Contents(), reply) == Routed(old(store.Contents()), r, c, hash)
  {
    match r.route {
      case Status(id) =>
        if id !in store.activations { return Some(Refused(404, "ACTIVATION_UNKNOWN")); }
        if c.policy.Some? { return Some(Refused(403, c.policy.value)); }
        return Some(Shown(store.activations[id]));
      case Create(body) =>
        if body.None? { return Some(Refused(400, "MALFORMED_PAYLOAD")); }
        var p := ProcessActivation(store, r, body.value, hash(body.value), c);
        reply := FinishPost(store, r, p, c.now);
      case Change(action, id) =>
        var p := ProcessStateChange(store, r, action, id, c);
        reply := FinishPost(store, r, p, c.now);
      case NoRoute => return Some(Refused(404, "NOT_FOUND"));
    }
  }

  method RejectEarly(store: PartnerStore, clientId: string, r: Request, code: string, refusal: Reply)
    returns (reply: Option<Reply>)
    requires store.Valid()
    modifies store
    ensures store.Valid()
    ensures (store.Contents(), reply) == Rejected(old(store.Contents()), store.failPoints, clientId, r, code, refusal)
  {
    var ok := store.AppendAudit(AuditEntry(clientId, r.requestId, RouteLabel(r.route), code));
    return if ok then Some(refusal) else None;
  }

  method HandleRequest(store: PartnerStore, r: Request, c: Circumstances, hash: BodyHash) returns (reply: Option<Reply>)
    requires store.Valid() && store.failPoints == c.fp
    modifies store
    ensures store.Valid()
    ensures (store.Contents(), reply) == Handle(old(store.Contents()), r, c, hash)
  {
    if c.disabled { return Some(Refused(503, "PARTNER_API_DISABLED")); }
    if r.route.NoRoute? { return Some(Refused(404, "NOT_FOUND")); }
    if !r.route.Status? && c.unreadable.Some? { return Some(Refused(c.unreadable.value.status, c.unreadable.value.code)); }
    if c.earlyAuth.Some? {
      reply := RejectEarly(store, "unknown", r, c.earlyAuth.value, Refused(401, c.earlyAuth.value));
      return;
    }
    if (r.clientId, r.nonce) in store.nonces
       && c.now - store.nonces[(r.clientId, r.nonce)].firstSeenAt <= NONCE_VALIDITY_WINDOW_MS {
      reply := RejectEarly(store, "unknown", r, "NONCE_REPLAYED", Refused(409, "NONCE_REPLAYED"));
      return;
    }
    store.PruneNonces(c.now);
    if c.lateAuth.Some? {
      reply := RejectEarly(store, "unknown", r, c.lateAuth.value, Refused(401, c.lateAuth.value));
      return;
    }
    if c.throttled.Some? {
      reply := RejectEarly(store, r.clientId, r, "RATE_LIMITED", Refused(429, "RATE_LIMITED"));
      return;
    }
    reply := HandleRoute(store, r, c, hash);
  }
}
