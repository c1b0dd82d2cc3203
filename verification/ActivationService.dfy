/**
 ARMA's durable activation state machine (patches/arma/activationService.ts over armaStore.ts).

 Every operation is split at its await: a Begin part that ends with the call to be made, and a
 Complete part that takes what the call came to. The records of attempts, receipts and audit
 events, which the service only ever writes, are not part of this model.
 */
module ActivationService {
  import opened Wrappers
  import PartnerClient
  import PartnerServer

  datatype Status =
    | Pending | ReadyToActivate | ActivationSent | ReceiptVerified | Active | ReconciliationRequired
    | Deactivated | Revoked | Rejected | Quarantined

  datatype Record = Record(activationId: string, idempotencyKey: string, armaOrgId: string,
                           patchesOrgId: string, capability: string, bindingId: string, status: Status,
                           patchesActivationId: Option<string>, identityHint: Option<string>,
                           rejectedCode: Option<string>, quarantineReason: Option<string>)

  datatype Resolution = Open | ResolvedActive | ResolvedNotFound | Blocked

  datatype Reconciliation = Reconciliation(resolution: Resolution, identity: string)

  /** `order` lists the activations as they were first stored: lookups take the first match. */
  datatype State = State(activations: map<string, Record>, order: seq<string>,
                         reconciliations: map<(string, nat), Reconciliation>)

  const EMPTY := State(map[], [], map[])

  /** A call the service waits on, with what it still knows from before. */
  datatype Call =
    | CreateCall(id: string, orgId: string, capability: string, bindingId: string, idempotencyKey: string)
    | ReconcileCall(id: string, identity: string, attemptNo: nat)
    | SyncCall(id: string, identity: string, statusBefore: Status)
    | LifecycleCall(id: string, action: PartnerServer.Action, target: string)

  // ----- Lookups -----

  predicate InFlight(status: Status) {
    status in {Active, ActivationSent, ReceiptVerified, ReconciliationRequired, Pending, ReadyToActivate}
  }

  predicate Closed(status: Status) {
    status in {Rejected, Quarantined, Revoked, Deactivated}
  }

  /** The first stored activation in flight for a binding and capability. */
  function FindForBinding(s: State, order: seq<string>, bindingId: string, capability: string): (found: Option<string>)
    ensures found.Some? ==>
              && found.value in order && found.value in s.activations
              && s.activations[found.value].bindingId == bindingId
              && s.activations[found.value].capability == capability
              && InFlight(s.activations[found.value].status)
    ensures found.None? ==> forall id :: id in order && id in s.activations
                                         && s.activations[id].bindingId == bindingId
                                         && s.activations[id].capability == capability ==>
                              !InFlight(s.activations[id].status)
  {
    if order == [] then None
    else if order[0] in s.activations && s.activations[order[0]].bindingId == bindingId
            && s.activations[order[0]].capability == capability && InFlight(s.activations[order[0]].status)
    then Some(order[0])
    else FindForBinding(s, order[1..], bindingId, capability)
  }

  /** The first stored activation with an idempotency key, whatever its status. */
  function FindByKey(s: State, order: seq<string>, key: string): (found: Option<string>)
    ensures found.Some? ==>
              found.value in order && found.value in s.activations && s.activations[found.value].idempotencyKey == key
    ensures found.None? ==>
              forall id :: id in order && id in s.activations ==> s.activations[id].idempotencyKey != key
  {
    if order == [] then None
    else if order[0] in s.activations && s.activations[order[0]].idempotencyKey == key then Some(order[0])
    else FindByKey(s, order[1..], key)
  }

  /** How often the activation's status was asked for so far. */
  function Queries(s: State, id: string): nat {
    |set k | k in s.reconciliations && k.0 == id|
  }

  // ----- Single writes -----

  function Put(s: State, r: Record): State {
    s.(activations := s.activations[r.activationId := r],
       order := if r.activationId in s.order then s.order else s.order + [r.activationId])
  }

  function Moved(s: State, id: string, to: Status, reason: Option<string>, rejectedCode: Option<string>): State
    requires id in s.activations
  {
    var r := s.activations[id];
    s.(activations := s.activations[id :=
         r.(status := to,
            quarantineReason := if reason.Some? then reason else r.quarantineReason,
            rejectedCode := if to.Rejected? && rejectedCode.Some? && rejectedCode.value != "" then rejectedCode else r.rejectedCode)])
  }

  // ----- Sending a create -----

  /** How far a process gets before it dies: every durable write may be its last. */
  datatype Fate = DiesFirst | DiesReady | DiesSent | Lives

  /** READY_TO_ACTIVATE, then ACTIVATION_SENT, both stored before the call goes out. */
  function BeginCreate(s: State, id: string, fate: Fate): (State, Option<Call>)
    requires id in s.activations
  {
    var r := s.activations[id];
    match fate
    case DiesFirst => (s, None)
    case DiesReady => (Moved(s, id, ReadyToActivate, None, None), None)
    case DiesSent => (Moved(s, id, ActivationSent, None, None), None)
    case Lives =>
      (Moved(s, id, ActivationSent, None, None),
       Some(CreateCall(id, r.patchesOrgId, r.capability, r.bindingId, r.idempotencyKey)))
  }

  datatype CreateOutcome =
    | Verified(activationId: Option<string>)
    | Failed(failureClass: PartnerClient.FailureClass, reason: Option<string>, errorCode: Option<string>)

  /** Where a failed create leaves the record. */
  function StatusOnFailure(c: PartnerClient.FailureClass, errorCode: Option<string>): Status {
    match c
    case Ambiguous => ReconciliationRequired
    case Terminal => if errorCode.Some? && AuthLike(errorCode.value) then Quarantined else Rejected
    case CleanRetryable => Quarantined
  }

  function ReasonOnFailure(c: PartnerClient.FailureClass, reason: Option<string>): string {
    match c
    case Ambiguous => if reason.Some? then reason.value else "AMBIGUOUS"
    case Terminal => if reason.Some? then reason.value else "TERMINAL"
    case CleanRetryable => "RETRIES_EXHAUSTED"
  }

  /** Every finished call leaves the id of its first attempt, sent or not, to ask about. */
  function Hinted(s: State, id: string, firstRequestId: string): State
    requires id in s.activations
  {
    s.(activations := s.activations[id :=
         s.activations[id].(identityHint := Some(PartnerServer.ActivationIdFor(firstRequestId)))])
  }

  function CompleteCreate(s: State, id: string, firstRequestId: string, outcome: CreateOutcome): State
    requires id in s.activations
  {
    var hinted := Hinted(s, id, firstRequestId);
    match outcome
    case Verified(a) =>
      WithServerId(hinted, id, if a.Some? then a else hinted.activations[id].patchesActivationId)
    case Failed(c, reason, errorCode) =>
      Moved(hinted, id, StatusOnFailure(c, errorCode), Some(ReasonOnFailure(c, reason)), errorCode)
  }

  function WithServerId(s: State, id: string, serverId: Option<string>): State
    requires id in s.activations
  {
    s.(activations := s.activations[id := s.activations[id].(status := Active, patchesActivationId := serverId)])
  }

  predicate AuthLike(code: string) {
    "AUTH_" <= code || PartnerClient.IsAuthFailure(code)
  }

  // ----- activate -----

  datatype Intent = Intent(armaOrgId: string, capability: string, bindingId: string, idempotencyKey: Option<string>)

  /** What the local reference tables say: the mapped organisation, and whether the preflight passes. */
  datatype Preflight = Preflight(patchesOrgId: Option<string>, paused: bool, refused: bool)

  /** What an activate call finds before it may send. */
  datatype Gate =
    | SwitchedOff
    | Refused
    | Collapsed(id: string)               // an activation of the same intent is under way
    | Reported(id: string)                // the key's activation is over
    | ResumeKey(id: string)
    | Fresh(key: string, patchesOrgId: string)

  function KeyFor(q: Intent, stableKey: string): string {
    if q.idempotencyKey.Some? then q.idempotencyKey.value else stableKey
  }

  function ActivateGate(s: State, disabled: bool, q: Intent, p: Preflight, stableKey: string): (g: Gate)
    ensures (g.Collapsed? ==> g.id in s.activations) && (g.Reported? ==> g.id in s.activations)
            && (g.ResumeKey? ==> g.id in s.activations)
  {
    if disabled then SwitchedOff
    else if p.patchesOrgId.None? || p.paused then Refused
    else
      var existing := FindForBinding(s, s.order, q.bindingId, q.capability);
      if existing.Some? && s.activations[existing.value].status !in {Pending, ReadyToActivate} then Collapsed(existing.value)
      else if existing.Some? && q.idempotencyKey.Some?
              && q.idempotencyKey.value != s.activations[existing.value].idempotencyKey then Collapsed(existing.value)
      else
        var key := KeyFor(q, stableKey);
        var prior := FindByKey(s, s.order, key);
        if prior.Some? then
          if Closed(s.activations[prior.value].status) then Reported(prior.value) else ResumeKey(prior.value)
        else if p.refused then Refused
        else Fresh(key, p.patchesOrgId.value)
  }

  function NewRecord(id: string, key: string, q: Intent, patchesOrgId: string, status: Status,
                     reason: Option<string>): Record {
    Record(id, key, q.armaOrgId, patchesOrgId, q.capability, q.bindingId, status, None, None, None, reason)
  }

  /** `newId` is the id a new record gets; `stableKey` the key derived from the intent. */
  function Activate(s: State, disabled: bool, q: Intent, p: Preflight, stableKey: string, newId: string, fate: Fate):
    (State, Option<Call>)
  {
    match ActivateGate(s, disabled, q, p, stableKey)
    case SwitchedOff =>
      (Put(s, NewRecord(newId, KeyFor(q, stableKey), q,
                        if p.patchesOrgId.Some? then p.patchesOrgId.value else "unmapped",
                        Quarantined, Some("ARMA_OUTBOUND_DISABLED"))), None)
    case Refused => (s, None)
    case Collapsed(_) => (s, None)
    case Reported(_) => (s, None)
    case ResumeKey(id) => BeginCreate(s, id, fate)
    case Fresh(key, patchesOrgId) =>
      BeginCreate(Put(s, NewRecord(newId, key, q, patchesOrgId, Pending, None)), newId, fate)
  }

  // ----- resume, reconcile -----

  function IdentityOf(r: Record): Option<string> {
    var identity := if r.patchesActivationId.Some? then r.patchesActivationId else r.identityHint;
    if identity.Some? && identity.value != "" then identity else None
  }

  function BeginReconcile(s: State, id: string): (State, Option<Call>) {
    if id !in s.activations || s.activations[id].status !in {ReconciliationRequired, ActivationSent} then (s, None)
    else
      var identity := IdentityOf(s.activations[id]);
      if identity.None? then (Moved(s, id, Quarantined, Some("NO_PATCHES_IDENTITY"), None), None)
      else (s, Some(ReconcileCall(id, identity.value, Queries(s, id) + 1)))
  }

  /**
   Only a record in RECONCILIATION_REQUIRED or ACTIVATION_SENT is reconciled; a closed one is
   reported. Everything else is taken for "nothing was ever sent" and sent.
   */
  function Resume(s: State, id: string, fate: Fate): (State, Option<Call>) {
    if id !in s.activations || Closed(s.activations[id].status) then (s, None)
    else if s.activations[id].status.ReconciliationRequired? then BeginReconcile(s, id)
    else if s.activations[id].status.ActivationSent? then
      var s' := Moved(s, id, ReconciliationRequired, Some("RESUME_AFTER_SEND"), None);
      if s.activations[id].identityHint.Some? && s.activations[id].identityHint.value != "" then BeginReconcile(s', id)
      else (Moved(s', id, Quarantined, Some("NO_IDENTITY_AFTER_SEND"), None), None)
    else BeginCreate(s, id, fate)
  }

  /** The answer to a status query. */
  datatype StatusOutcome =
    | Denied
    | Shown(view: PartnerServer.Activation)
    | NotFound
    | Unknown

  predicate SameIdentity(r: Record, v: PartnerServer.Activation) {
    v.bindingId == r.bindingId && v.capability == r.capability && v.orgId == r.patchesOrgId
  }

  function Noted(s: State, c: Call, resolution: Resolution): State
    requires c.ReconcileCall?
  {
    s.(reconciliations := s.reconciliations[(c.id, c.attemptNo) := Reconciliation(resolution, c.identity)])
  }

  /** The 404 that is the bound-th query or later leads to a fresh create under the same key. */
  function CompleteReconcile(s: State, c: Call, outcome: StatusOutcome, bound: nat, fate: Fate): (State, Option<Call>)
    requires c.ReconcileCall? && c.id in s.activations
  {
    match outcome
    case Denied => (Moved(Noted(s, c, Blocked), c.id, Quarantined, Some("RECONCILIATION_ACCESS_DENIED"), None), None)
    case Shown(v) =>
      if !v.status.Active? then (Noted(s, c, Open), None)
      else if !SameIdentity(s.activations[c.id], v) then
        (Moved(Noted(s, c, Blocked), c.id, Quarantined, Some("STATUS_IDENTITY_MISMATCH"), None), None)
      else (WithServerId(Noted(s, c, ResolvedActive), c.id, Some(v.activationId)), None)
    case NotFound =>
      if c.attemptNo >= bound then BeginCreate(Noted(s, c, ResolvedNotFound), c.id, fate)
      else (Noted(s, c, Open), None)
    case Unknown => (Noted(s, c, Open), None)
  }

  // ----- syncStatus, deactivate, revoke -----

  function BeginSync(s: State, id: string): (State, Option<Call>) {
    if id !in s.activations || IdentityOf(s.activations[id]).None? then (s, None)
    else (s, Some(SyncCall(id, IdentityOf(s.activations[id]).value, s.activations[id].status)))
  }

  function CompleteSync(s: State, c: Call, outcome: StatusOutcome): State
    requires c.SyncCall? && c.id in s.activations
  {
    match outcome
    case Shown(v) =>
      if !SameIdentity(s.activations[c.id], v) then Moved(s, c.id, Quarantined, Some("STATUS_IDENTITY_MISMATCH"), None)
      else
        (match v.status
         case Active => if c.statusBefore.Active? then s else WithServerId(s, c.id, Some(v.activationId))
         case Deactivated => Moved(s, c.id, Deactivated, Some("STATUS_SYNCED_DEACTIVATED"), None)
         case Revoked => Moved(s, c.id, Revoked, Some("STATUS_SYNCED_REVOKED"), None))
    case _ => s
  }

  function LocalStatus(action: PartnerServer.Action): Status {
    if action.Revoke? then Revoked else Deactivated
  }

  function BeginLifecycle(s: State, id: string, action: PartnerServer.Action): (State, Option<Call>) {
    if id !in s.activations || s.activations[id].status == LocalStatus(action) then (s, None)
    else if s.activations[id].patchesActivationId.None? || s.activations[id].patchesActivationId.value == "" then
      (if action.Revoke? then Moved(s, id, Revoked, Some("REVOKED_LOCAL_ONLY"), None) else s, None)
    else (s, Some(LifecycleCall(id, action, s.activations[id].patchesActivationId.value)))
  }

  /** Only a verified receipt moves the record; an ambiguous failure opens reconciliation. */
  function CompleteLifecycle(s: State, c: Call, outcome: CreateOutcome): State
    requires c.LifecycleCall? && c.id in s.activations
  {
    match outcome
    case Verified(_) => s.(activations := s.activations[c.id := s.activations[c.id].(status := LocalStatus(c.action))])
    case Failed(failure, reason, _) =>
      if failure.Ambiguous? then
        Moved(s, c.id, ReconciliationRequired, Some(if reason.Some? then reason.value else "AMBIGUOUS"), None)
      else s
  }

  // ----- The service, writing its store as it goes -----

  class ArmaActivationService {
    var activations: map<string, Record>
    var order: seq<string>
    var reconciliations: map<(string, nat), Reconciliation>
    const bound: nat

    function Current(): State
      reads this
    {
      State(activations, order, reconciliations)
    }

    constructor (bound: nat)
      ensures Current() == EMPTY && this.bound == bound
    {
      activations, order, reconciliations := map[], [], map[];
      this.bound := bound;
    }

    method PutActivation(r: Record)
      modifies this`activations, this`order
      ensures Current() == Put(old(Current()), r)
    {
      if r.activationId !in order { order := order + [r.activationId]; }
      activations := activations[r.activationId := r];
    }

    method Transition(id: string, to: Status, reason: Option<string>, rejectedCode: Option<string>)
      requires id in activations
      modifies this`activations
      ensures Current() == Moved(old(Current()), id, to, reason, rejectedCode)
    {
      var updated := activations[id].(status := to);
      if reason.Some? { updated := updated.(quarantineReason := reason); }
      if to.Rejected? && rejectedCode.Some? && rejectedCode.value != "" { updated := updated.(rejectedCode := rejectedCode); }
      activations := activations[id := updated];
    }

    /** Up to the outbound call. */
    method SendCreate(id: string) returns (call: Option<Call>)
      requires id in activations
      modifies this`activations
      ensures (Current(), call) == BeginCreate(old(Current()), id, Lives)
    {
      var r := activations[id];
      Transition(id, ReadyToActivate, None, None);
      Transition(id, ActivationSent, None, None);
      assert activations == old(activations)[id := r.(status := ActivationSent)];
      call := Some(CreateCall(id, r.patchesOrgId, r.capability, r.bindingId, r.idempotencyKey));
    }

    method FinishCreate(id: string, firstRequestId: string, outcome: CreateOutcome)
      requires id in activations
      modifies this`activations
      ensures Current() == CompleteCreate(old(Current()), id, firstRequestId, outcome)
    {
      activations := activations[id :=
        activations[id].(identityHint := Some(PartnerServer.ActivationIdFor(firstRequestId)))];
      match outcome {
        case Verified(a) =>
          var serverId := if a.Some? then a else activations[id].patchesActivationId;
          activations := activations[id := activations[id].(status := ReceiptVerified, patchesActivationId := serverId)];
          activations := activations[id := activations[id].(status := Active)];
        case Failed(failure, reason, errorCode) =>
          match failure {
            case Ambiguous =>
              Transition(id, ReconciliationRequired, Some(ReasonOnFailure(failure, reason)), errorCode);
            case Terminal =>
              if errorCode.Some? && AuthLike(errorCode.value) {
                Transition(id, Quarantined, Some(ReasonOnFailure(failure, reason)), errorCode);
              } else {
                Transition(id, Rejected, Some(ReasonOnFailure(failure, reason)), errorCode);
              }
            case CleanRetryable => Transition(id, Quarantined, Some(ReasonOnFailure(failure, reason)), errorCode);
          }
      }
    }

    method StartActivate(disabled: bool, q: Intent, p: Preflight, stableKey: string, newId: string)
      returns (call: Option<Call>)
      modifies this`activations, this`order
      ensures (Current(), call) == Activate(old(Current()), disabled, q, p, stableKey, newId, Lives)
    {
      if disabled {
        PutActivation(NewRecord(newId, KeyFor(q, stableKey), q,
                                if p.patchesOrgId.Some? then p.patchesOrgId.value else "unmapped",
                                Quarantined, Some("ARMA_OUTBOUND_DISABLED")));
        return None;
      }
      if p.patchesOrgId.None? || p.paused { return None; }
      var existing := FindForBinding(Current(), order, q.bindingId, q.capability);
      if existing.Some? {
        var r := activations[existing.value];
        if r.status in {Active, ReceiptVerified, ActivationSent, ReconciliationRequired} { return None; }
        if q.idempotencyKey.Some? && q.idempotencyKey.value != r.idempotencyKey { return None; }
      }
      var key := KeyFor(q, stableKey);
      var prior := FindByKey(Current(), order, key);
      if prior.Some? {
        if Closed(activations[prior.value].status) { return None; }
        call := SendCreate(prior.value);
        return;
      }
      if p.refused { return None; }
      PutActivation(NewRecord(newId, key, q, p.patchesOrgId.value, Pending, None));
      call := SendCreate(newId);
    }

    method StartReconcile(id: string) returns (call: Option<Call>)
      modifies this`activations
      ensures (Current(), call) == BeginReconcile(old(Current()), id)
    {
      if id !in activations { return None; }
      var r := activations[id];
      if r.status != ReconciliationRequired && r.status != ActivationSent { return None; }
      var identity := IdentityOf(r);
      if identity.None? {
        Transition(id, Quarantined, Some("NO_PATCHES_IDENTITY"), None);
        return None;
      }
      call := Some(ReconcileCall(id, identity.value, Queries(Current(), id) + 1));
    }

    method StartResume(id: string) returns (call: Option<Call>)
      modifies this`activations
      ensures (Current(), call) == Resume(old(Current()), id, Lives)
    {
      if id !in activations { return None; }
      var r := activations[id];
      if Closed(r.status) { return None; }
      if r.status.ReconciliationRequired? {
        call := StartReconcile(id);
        return;
      }
      if r.status.ActivationSent? {
        Transition(id, ReconciliationRequired, Some("RESUME_AFTER_SEND"), None);
        if r.identityHint.Some? && r.identityHint.value != "" {
          call := StartReconcile(id);
          return;
        }
        Transition(id, Quarantined, Some("NO_IDENTITY_AFTER_SEND"), None);
        return None;
      }
      call := SendCreate(id);
    }

    method FinishReconcile(c: Call, outcome: StatusOutcome) returns (call: Option<Call>)
      requires c.ReconcileCall? && c.id in activations
      modifies this`activations, this`reconciliations
      ensures (Current(), call) == CompleteReconcile(old(Current()), c, outcome, bound, Lives)
    {
      var key := (c.id, c.attemptNo);
      match outcome {
        case Denied =>
          reconciliations := reconciliations[key := Reconciliation(Blocked, c.identity)];
          Transition(c.id, Quarantined, Some("RECONCILIATION_ACCESS_DENIED"), None);
        case Shown(v) =>
          if !v.status.Active? {
            reconciliations := reconciliations[key := Reconciliation(Open, c.identity)];
          } else if !SameIdentity(activations[c.id], v) {
            reconciliations := reconciliations[key := Reconciliation(Blocked, c.identity)];
            Transition(c.id, Quarantined, Some("STATUS_IDENTITY_MISMATCH"), None);
          } else {
            reconciliations := reconciliations[key := Reconciliation(ResolvedActive, c.identity)];
            activations := activations[c.id :=
              activations[c.id].(status := Active, patchesActivationId := Some(v.activationId))];
          }
        case NotFound =>
          if c.attemptNo >= bound {
            reconciliations := reconciliations[key := Reconciliation(ResolvedNotFound, c.identity)];
            call := SendCreate(c.id);
            return;
          }
          reconciliations := reconciliations[key := Reconciliation(Open, c.identity)];
        case Unknown => reconciliations := reconciliations[key := Reconciliation(Open, c.identity)];
      }
      return None;
    }

    method FinishSync(c: Call, outcome: StatusOutcome)
      requires c.SyncCall? && c.id in activations
      modifies this`activations
      ensures Current() == CompleteSync(old(Current()), c, outcome)
    {
      if !outcome.Shown? { return; }
      var v := outcome.view;
      if !SameIdentity(activations[c.id], v) {
        Transition(c.id, Quarantined, Some("STATUS_IDENTITY_MISMATCH"), None);
        return;
      }
      match v.status {
        case Active =>
          if !c.statusBefore.Active? {
            activations := activations[c.id :=
              activations[c.id].(status := Active, patchesActivationId := Some(v.activationId))];
          }
        case Deactivated => Transition(c.id, Deactivated, Some("STATUS_SYNCED_DEACTIVATED"), None);
        case Revoked => Transition(c.id, Revoked, Some("STATUS_SYNCED_REVOKED"), None);
      }
    }

    method StartLifecycle(id: string, action: PartnerServer.Action) returns (call: Option<Call>)
      modifies this`activations
      ensures (Current(), call) == BeginLifecycle(old(Current()), id, action)
    {
      if id !in activations { return None; }
      var r := activations[id];
      if action.Deactivate? && r.status.Deactivated? { return None; }
      if action.Revoke? && r.status.Revoked? { return None; }
      if r.patchesActivationId.None? || r.patchesActivationId.value == "" {
        if action.Revoke? { Transition(id, Revoked, Some("REVOKED_LOCAL_ONLY"), None); }
        return None;
      }
      call := Some(LifecycleCall(id, action, r.patchesActivationId.value));
    }

    method FinishLifecycle(c: Call, outcome: CreateOutcome)
      requires c.LifecycleCall? && c.id in activations
      modifies this`activations
      ensures Current() == CompleteLifecycle(old(Current()), c, outcome)
    {
      match outcome {
        case Verified(_) =>
          activations := activations[c.id := activations[c.id].(status := LocalStatus(c.action))];
        case Failed(failure, reason, _) =>
          if failure.Ambiguous? {
            Transition(c.id, ReconciliationRequired, Some(if reason.Some? then reason.value else "AMBIGUOUS"), None);
          }
      }
    }
  }
}
