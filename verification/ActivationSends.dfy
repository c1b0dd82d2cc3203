/**
 When ARMA sends a create: never blindly, over every interleaving and every crash, except where
 `resume` is asked to resume an activation that is already ACTIVE.
 */
module ActivationSends {
  import opened Wrappers
  import S = PartnerServer
  import opened ActivationService

  /** ARMA's store, the calls it waits on, and the ids it has sent a create for, in order. */
  datatype Side = Side(store: State, calls: multiset<Call>, sent: seq<string>)

  const START := Side(EMPTY, multiset{}, [])

  datatype Move =
    | DoActivate(disabled: bool, q: Intent, p: Preflight, stableKey: string, newId: string, fate: Fate)
    | DoResume(id: string, fate: Fate)
    | DoReconcile(id: string)
    | DoSync(id: string)
    | DoLifecycle(id: string, action: S.Action)
    | CreateDone(call: Call, firstRequestId: string, outcome: CreateOutcome)
    | ReconcileDone(call: Call, answer: StatusOutcome, bound: nat, fate: Fate)
    | SyncDone(call: Call, answer: StatusOutcome)
    | LifecycleDone(call: Call, outcome: CreateOutcome)
    | Crash

  /** Calls in flight settle once; new records come with fresh ids. */
  predicate Possible(y: Side, m: Move) {
    match m
    case DoActivate(_, _, _, _, newId, _) => newId !in y.store.activations && newId !in y.store.order
    case CreateDone(c, _, _) => c in y.calls && c.CreateCall? && c.id in y.store.activations
    case ReconcileDone(c, _, _, _) => c in y.calls && c.ReconcileCall? && c.id in y.store.activations
    case SyncDone(c, _) => c in y.calls && c.SyncCall? && c.id in y.store.activations
    case LifecycleDone(c, _) => c in y.calls && c.LifecycleCall? && c.id in y.store.activations
    case _ => true
  }

  /** The result of a Begin part: its call, if any, is in flight; a death forgets every call. */
  function Begun(y: Side, result: (State, Option<Call>), dies: bool): Side {
    Side(result.0,
         if dies then multiset{} else if result.1.Some? then y.calls + multiset{result.1.value} else y.calls,
         if result.1.Some? && result.1.value.CreateCall? then y.sent + [result.1.value.id] else y.sent)
  }

  function Moved(y: Side, m: Move): Side {
    if !Possible(y, m) then y
    else
      match m
      case DoActivate(disabled, q, p, stableKey, newId, fate) =>
        Begun(y, Activate(y.store, disabled, q, p, stableKey, newId, fate), !fate.Lives?)
      case DoResume(id, fate) => Begun(y, Resume(y.store, id, fate), !fate.Lives?)
      case DoReconcile(id) => Begun(y, BeginReconcile(y.store, id), false)
      case DoSync(id) => Begun(y, BeginSync(y.store, id), false)
      case DoLifecycle(id, action) => Begun(y, BeginLifecycle(y.store, id, action), false)
      case CreateDone(c, firstRequestId, outcome) =>
        y.(store := CompleteCreate(y.store, c.id, firstRequestId, outcome), calls := y.calls - multiset{c})
      case ReconcileDone(c, answer, bound, fate) =>
        Begun(y.(calls := y.calls - multiset{c}), CompleteReconcile(y.store, c, answer, bound, fate), !fate.Lives?)
      case SyncDone(c, answer) => y.(store := CompleteSync(y.store, c, answer), calls := y.calls - multiset{c})
      case LifecycleDone(c, outcome) => y.(store := CompleteLifecycle(y.store, c, outcome), calls := y.calls - multiset{c})
      case Crash => y.(calls := multiset{})
  }

  function Run(y: Side, moves: seq<Move>): Side
    decreases |moves|
  {
    if moves == [] then y else Run(Moved(y, moves[0]), moves[1..])
  }

  // ----- One key for one binding and capability -----

  /** The intent's key is that of its binding and capability, and of no other. */
  ghost predicate KeyFits(s: State, key: string, bindingId: string, capability: string) {
    forall id :: id in s.activations ==>
      (s.activations[id].idempotencyKey == key
       <==> s.activations[id].bindingId == bindingId && s.activations[id].capability == capability)
  }

  /** Every intent of the run keeps keys and (binding, capability) pairs one to one. */
  ghost predicate Fits(y: Side, m: Move) {
    m.DoActivate? ==> KeyFits(y.store, KeyFor(m.q, m.stableKey), m.q.bindingId, m.q.capability)
  }

  ghost predicate AllFit(y: Side, moves: seq<Move>)
    decreases |moves|
  {
    moves == [] || (Fits(y, moves[0]) && AllFit(Moved(y, moves[0]), moves[1..]))
  }

  // ----- The invariant -----

  ghost predicate OneToOne(s: State) {
    forall a, b :: a in s.activations && b in s.activations ==>
      (s.activations[a].idempotencyKey == s.activations[b].idempotencyKey
       <==> s.activations[a].bindingId == s.activations[b].bindingId
            && s.activations[a].capability == s.activations[b].capability)
  }

  /** Closed before anything was sent, and without an identity to ask about: nothing revives it. */
  predicate Dead(y: Side, id: string)
    requires id in y.store.activations
  {
    var r := y.store.activations[id];
    Closed(r.status) && r.patchesActivationId.None? && r.identityHint.None? && id !in y.sent
  }

  predicate Twins(s: State, a: string, b: string)
    requires a in s.activations && b in s.activations
  {
    a != b && s.activations[a].idempotencyKey == s.activations[b].idempotencyKey
  }

  /** Of the records of one key all but one are dead. */
  ghost predicate OneLive(y: Side) {
    forall a, b :: a in y.store.activations && b in y.store.activations && Twins(y.store, a, b) ==>
      Dead(y, a) || Dead(y, b)
  }

  predicate Listed(s: State) {
    && (forall id :: id in s.activations ==> id in s.order)
    && (forall id :: id in s.order ==> id in s.activations)
    && (forall id :: id in s.activations ==> !s.activations[id].status.ReceiptVerified?)
  }

  predicate CallOk(y: Side, c: Call) {
    && c.id in y.store.activations
    && (c.CreateCall? ==> c.id in y.sent && y.store.activations[c.id].status !in {Pending, ReadyToActivate})
    && (!c.CreateCall? ==> y.store.activations[c.id].patchesActivationId.Some? || y.store.activations[c.id].identityHint.Some?)
  }

  ghost predicate SentOk(y: Side) {
    && (forall id :: id in y.sent ==> id in y.store.activations)
    && (forall id :: id in y.store.activations && y.store.activations[id].status.Pending? ==> id !in y.sent)
  }

  ghost predicate Ok(y: Side) {
    && Listed(y.store) && OneToOne(y.store) && OneLive(y) && SentOk(y)
    && (forall c :: c in y.calls ==> CallOk(y, c))
  }

  // ----- Changing one record -----

  /** What a record keeps whatever happens to it. */
  predicate SameIntent(r: Record, r': Record) {
    && r'.activationId == r.activationId && r'.idempotencyKey == r.idempotencyKey
    && r'.bindingId == r.bindingId && r'.capability == r.capability && r'.patchesOrgId == r.patchesOrgId
    && (r.patchesActivationId.Some? ==> r'.patchesActivationId.Some?)
    && (r.identityHint.Some? ==> r'.identityHint.Some?)
  }

  /** One record replaced, the order untouched. */
  predicate Replaced(s: State, s': State, id: string) {
    && id in s.activations && s'.order == s.order
    && s'.activations.Keys == s.activations.Keys
    && (forall t :: t in s.activations && t != id ==> s'.activations[t] == s.activations[t])
    && SameIntent(s.activations[id], s'.activations[id])
    && !s'.activations[id].status.ReceiptVerified?
    && (s'.activations[id].status.Pending? ==> s.activations[id].status.Pending?)
  }

  lemma ReplacedKeepsKeys(s: State, s': State, id: string)
    requires Listed(s) && OneToOne(s) && Replaced(s, s', id)
    ensures Listed(s') && OneToOne(s')
  {
  }

  /** A change to a record that was not dead, or that stays so. */
  lemma ReplacedKeepsOneLive(y: Side, y': Side, id: string)
    requires Ok(y) && Replaced(y.store, y'.store, id)
    requires forall t :: t in y'.sent ==> t in y.sent || t == id
    requires Dead(y, id) ==> Dead(y', id)
    ensures OneLive(y')
  {
    forall a, b | a in y'.store.activations && b in y'.store.activations && Twins(y'.store, a, b)
      ensures Dead(y', a) || Dead(y', b)
    {
      assert a in y.store.activations && b in y.store.activations && Twins(y.store, a, b);
      if Dead(y, a) { assert Dead(y', a); } else { assert Dead(y, b); assert Dead(y', b); }
    }
  }

  /** A record moves on; calls are kept or forgotten, and nothing is sent. */
  lemma QuietChangeKeeps(y: Side, y': Side, id: string)
    requires Ok(y) && Replaced(y.store, y'.store, id) && y'.sent == y.sent
    requires Dead(y, id) ==> Dead(y', id)
    requires forall c :: c in y'.calls ==> c in y.calls
    requires y'.store.activations[id].status in {Pending, ReadyToActivate} ==> y'.calls == multiset{}
    ensures Ok(y')
  {
    ReplacedKeepsKeys(y.store, y'.store, id);
    ReplacedKeepsOneLive(y, y', id);
    forall c | c in y'.calls ensures CallOk(y', c) { assert CallOk(y, c); }
  }

  /** Only the calls, or the reconciliation notes, change. */
  lemma NoChangeKeeps(y: Side, y': Side)
    requires Ok(y) && y'.store.activations == y.store.activations && y'.store.order == y.store.order
    requires y'.sent == y.sent && forall c :: c in y'.calls ==> c in y.calls || CallOk(y', c)
    ensures Ok(y')
  {
    forall a, b | a in y'.store.activations && b in y'.store.activations && Twins(y'.store, a, b)
      ensures Dead(y', a) || Dead(y', b)
    {
      assert Twins(y.store, a, b);
      assert Dead(y, a) || Dead(y, b);
    }
    forall c | c in y'.calls ensures CallOk(y', c) { if c in y.calls { assert CallOk(y, c); } }
  }

  // ----- Sending keeps the invariant -----

  lemma MovedReplaces(s: State, id: string, to: Status, reason: Option<string>, code: Option<string>)
    requires id in s.activations && !to.ReceiptVerified? && !to.Pending?
    ensures var s' := ActivationService.Moved(s, id, to, reason, code);
            Replaced(s, s', id) && s'.activations[id].status == to
            && s'.activations[id].patchesActivationId == s.activations[id].patchesActivationId
            && s'.activations[id].identityHint == s.activations[id].identityHint
  {
  }

  /** A create goes out: its call is in flight and the record stands at ACTIVATION_SENT. */
  lemma SendKeeps(y: Side, id: string)
    requires Ok(y) && id in y.store.activations && !Dead(y, id)
    ensures Ok(Begun(y, BeginCreate(y.store, id, Lives), false))
  {
    var y' := Begun(y, BeginCreate(y.store, id, Lives), false);
    MovedReplaces(y.store, id, ActivationSent, None, None);
    OneMoreSentKeeps(y, y', id, BeginCreate(y.store, id, Lives).1.value);
  }

  lemma OneMoreSentKeeps(y: Side, y': Side, id: string, call: Call)
    requires Ok(y) && Replaced(y.store, y'.store, id) && !Dead(y, id)
    requires y'.store.activations[id].status.ActivationSent? && call.CreateCall? && call.id == id
    requires y'.calls == y.calls + multiset{call} && y'.sent == y.sent + [id]
    ensures Ok(y')
  {
    ReplacedKeepsKeys(y.store, y'.store, id);
    ReplacedKeepsOneLive(y, y', id);
    forall c | c in y'.calls ensures CallOk(y', c) { if c in y.calls { assert CallOk(y, c); } }
  }

  lemma DyingSendKeeps(y: Side, id: string, fate: Fate)
    requires Ok(y) && id in y.store.activations && !Dead(y, id) && !fate.Lives?
    ensures Ok(Begun(y, BeginCreate(y.store, id, fate), true))
  {
    var y' := Begun(y, BeginCreate(y.store, id, fate), true);
    if fate.DiesFirst? {
      NoChangeKeeps(y, y');
    } else {
      MovedReplaces(y.store, id, if fate.DiesReady? then ReadyToActivate else ActivationSent, None, None);
      QuietChangeKeeps(y, y', id);
    }
  }

  lemma BeginCreateKeeps(y: Side, id: string, fate: Fate)
    requires Ok(y) && id in y.store.activations && !Dead(y, id)
    ensures Ok(Begun(y, BeginCreate(y.store, id, fate), !fate.Lives?))
  {
    if fate.Lives? { SendKeeps(y, id); } else { DyingSendKeeps(y, id, fate); }
  }

  // ----- activate keeps it -----

  /** A new record joins: the only one of its key, or a dead one. */
  lemma NewRecordKeeps(y: Side, r: Record)
    requires Ok(y) && r.activationId !in y.store.activations && r.activationId !in y.store.order
    requires KeyFits(y.store, r.idempotencyKey, r.bindingId, r.capability)
    requires r.status.Pending? || (r.status.Quarantined? && r.patchesActivationId.None? && r.identityHint.None?)
    requires r.status.Pending? ==> forall id :: id in y.store.activations ==> y.store.activations[id].idempotencyKey != r.idempotencyKey
    ensures Ok(y.(store := Put(y.store, r)))
  {
    var y' := y.(store := Put(y.store, r));
    forall a, b | a in y'.store.activations && b in y'.store.activations && Twins(y'.store, a, b)
      ensures Dead(y', a) || Dead(y', b)
    {
      if a in y.store.activations && b in y.store.activations {
        assert Twins(y.store, a, b);
        assert Dead(y, a) || Dead(y, b);
      }
    }
    forall c | c in y'.calls ensures CallOk(y', c) { assert CallOk(y, c); }
  }

  lemma OneInFlight(y: Side, a: string, b: string)
    requires Ok(y) && a in y.store.activations && b in y.store.activations
    requires y.store.activations[a].idempotencyKey == y.store.activations[b].idempotencyKey
    requires InFlight(y.store.activations[a].status) && InFlight(y.store.activations[b].status)
    ensures a == b
  {
  }

  /** The key's activation that activate resumes is the binding's own, and has not been sent. */
  lemma ResumedKeyIsUnsent(y: Side, m: Move)
    requires Ok(y) && m.DoActivate? && Fits(y, m)
    requires ActivateGate(y.store, m.disabled, m.q, m.p, m.stableKey).ResumeKey?
    ensures var id := ActivateGate(y.store, m.disabled, m.q, m.p, m.stableKey).id;
            id in y.store.activations && y.store.activations[id].status in {Pending, ReadyToActivate}
  {
    var s := y.store;
    var id := ActivateGate(s, m.disabled, m.q, m.p, m.stableKey).id;
    var existing := FindForBinding(s, s.order, m.q.bindingId, m.q.capability);
    assert InFlight(s.activations[id].status);
    assert existing.Some?;
    OneInFlight(y, existing.value, id);
  }

  lemma ActivateKeeps(y: Side, m: Move)
    requires Ok(y) && m.DoActivate? && Possible(y, m) && Fits(y, m)
    ensures Ok(Moved(y, m))
  {
    match ActivateGate(y.store, m.disabled, m.q, m.p, m.stableKey) {
      case SwitchedOff => SwitchedOffKeeps(y, m);
      case ResumeKey(_) => ResumeKeyKeeps(y, m);
      case Fresh(key, patchesOrgId) => FreshKeeps(y, m, key, patchesOrgId);
      case _ => NoChangeKeeps(y, Moved(y, m));
    }
  }

  lemma SwitchedOffKeeps(y: Side, m: Move)
    requires Ok(y) && m.DoActivate? && Possible(y, m) && Fits(y, m) && m.disabled
    ensures Ok(Moved(y, m))
  {
    var r := NewRecord(m.newId, KeyFor(m.q, m.stableKey), m.q,
                       if m.p.patchesOrgId.Some? then m.p.patchesOrgId.value else "unmapped",
                       Quarantined, Some("ARMA_OUTBOUND_DISABLED"));
    NewRecordKeeps(y, r);
    NoChangeKeeps(y.(store := Put(y.store, r)), Moved(y, m));
  }

  lemma ResumeKeyKeeps(y: Side, m: Move)
    requires Ok(y) && m.DoActivate? && Possible(y, m) && Fits(y, m)
    requires ActivateGate(y.store, m.disabled, m.q, m.p, m.stableKey).ResumeKey?
    ensures Ok(Moved(y, m))
  {
    ResumedKeyIsUnsent(y, m);
    ResumeKeyIs(y, m);
    BeginCreateKeeps(y, ActivateGate(y.store, m.disabled, m.q, m.p, m.stableKey).id, m.fate);
  }

  lemma ResumeKeyIs(y: Side, m: Move)
    requires m.DoActivate? && Possible(y, m) && ActivateGate(y.store, m.disabled, m.q, m.p, m.stableKey).ResumeKey?
    ensures var id := ActivateGate(y.store, m.disabled, m.q, m.p, m.stableKey).id;
            Moved(y, m) == Begun(y, BeginCreate(y.store, id, m.fate), !m.fate.Lives?)
  {
  }

  lemma FreshKeeps(y: Side, m: Move, key: string, patchesOrgId: string)
    requires Ok(y) && m.DoActivate? && Possible(y, m) && Fits(y, m)
    requires ActivateGate(y.store, m.disabled, m.q, m.p, m.stableKey) == Fresh(key, patchesOrgId)
    ensures Ok(Moved(y, m))
  {
    var r := NewRecord(m.newId, key, m.q, patchesOrgId, Pending, None);
    FreshIs(y, m, key, patchesOrgId);
    NewRecordKeeps(y, r);
    BeginCreateKeeps(y.(store := Put(y.store, r)), m.newId, m.fate);
  }

  lemma FreshIs(y: Side, m: Move, key: string, patchesOrgId: string)
    requires m.DoActivate? && Possible(y, m) && Listed(y.store)
    requires ActivateGate(y.store, m.disabled, m.q, m.p, m.stableKey) == Fresh(key, patchesOrgId)
    ensures key == KeyFor(m.q, m.stableKey)
    ensures forall id :: id in y.store.activations ==> y.store.activations[id].idempotencyKey != key
    ensures var r := NewRecord(m.newId, key, m.q, patchesOrgId, Pending, None);
            var y1 := y.(store := Put(y.store, r));
            Moved(y, m) == Begun(y1, BeginCreate(y1.store, m.newId, m.fate), !m.fate.Lives?)
  {
  }

  // ----- The other moves keep it -----

  lemma BeginReconcileKeeps(y: Side, id: string, dies: bool)
    requires Ok(y)
    ensures Ok(Begun(y, BeginReconcile(y.store, id), dies))
  {
    var y' := Begun(y, BeginReconcile(y.store, id), dies);
    if id in y.store.activations && y.store.activations[id].status in {ReconciliationRequired, ActivationSent}
       && IdentityOf(y.store.activations[id]).None? {
      MovedReplaces(y.store, id, Quarantined, Some("NO_PATCHES_IDENTITY"), None);
      QuietChangeKeeps(y, y', id);
    } else {
      NoChangeKeeps(y, y');
    }
  }

  lemma ResumeKeeps(y: Side, id: string, fate: Fate)
    requires Ok(y)
    ensures Ok(Begun(y, Resume(y.store, id, fate), !fate.Lives?))
  {
    var dies := !fate.Lives?;
    var y' := Begun(y, Resume(y.store, id, fate), dies);
    if id !in y.store.activations || Closed(y.store.activations[id].status) {
      NoChangeKeeps(y, y');
    } else if y.store.activations[id].status.ReconciliationRequired? {
      BeginReconcileKeeps(y, id, dies);
    } else if y.store.activations[id].status.ActivationSent? {
      ResumeSentKeeps(y, id, dies);
    } else {
      BeginCreateKeeps(y, id, fate);
    }
  }

  lemma ResumeSentKeeps(y: Side, id: string, dies: bool)
    requires Ok(y) && id in y.store.activations && y.store.activations[id].status.ActivationSent?
    ensures Ok(Begun(y, Resume(y.store, id, Lives), dies))
  {
    InterruptedKeeps(y, id);
    ResumeSentIs(y, id, dies);
    if Truthy(y.store.activations[id].identityHint) {
      BeginReconcileKeeps(Interrupted(y, id), id, dies);
    } else {
      QuarantineKeeps(Interrupted(y, id), id, Some("NO_IDENTITY_AFTER_SEND"), dies);
    }
  }

  predicate Truthy(s: Option<string>) {
    s.Some? && s.value != ""
  }

  lemma ResumeSentIs(y: Side, id: string, dies: bool)
    requires id in y.store.activations && y.store.activations[id].status.ActivationSent?
    ensures var y1 := Interrupted(y, id);
            Begun(y, Resume(y.store, id, Lives), dies)
            == Begun(y1, if Truthy(y.store.activations[id].identityHint) then BeginReconcile(y1.store, id)
                         else (ActivationService.Moved(y1.store, id, Quarantined, Some("NO_IDENTITY_AFTER_SEND"), None), None),
                     dies)
  {
  }

  function Interrupted(y: Side, id: string): Side
    requires id in y.store.activations
  {
    y.(store := ActivationService.Moved(y.store, id, ReconciliationRequired, Some("RESUME_AFTER_SEND"), None))
  }

  lemma InterruptedKeeps(y: Side, id: string)
    requires Ok(y) && id in y.store.activations && y.store.activations[id].status.ActivationSent?
    ensures Ok(Interrupted(y, id))
  {
    MovedReplaces(y.store, id, ReconciliationRequired, Some("RESUME_AFTER_SEND"), None);
    QuietChangeKeeps(y, Interrupted(y, id), id);
  }

  lemma QuarantineKeeps(y: Side, id: string, reason: Option<string>, dies: bool)
    requires Ok(y) && id in y.store.activations
    ensures Ok(Begun(y, (ActivationService.Moved(y.store, id, Quarantined, reason, None), None), dies))
  {
    MovedReplaces(y.store, id, Quarantined, reason, None);
    QuietChangeKeeps(y, Begun(y, (ActivationService.Moved(y.store, id, Quarantined, reason, None), None), dies), id);
  }

  lemma BeginSyncKeeps(y: Side, id: string)
    requires Ok(y)
    ensures Ok(Begun(y, BeginSync(y.store, id), false))
  {
  }

  lemma BeginLifecycleKeeps(y: Side, id: string, action: S.Action)
    requires Ok(y)
    ensures Ok(Begun(y, BeginLifecycle(y.store, id, action), false))
  {
    var y' := Begun(y, BeginLifecycle(y.store, id, action), false);
    if y'.store == y.store {
      NoChangeKeeps(y, y');
    } else {
      MovedReplaces(y.store, id, Revoked, Some("REVOKED_LOCAL_ONLY"), None);
      QuietChangeKeeps(y, y', id);
    }
  }

  lemma CompleteCreateReplaces(s: State, id: string, firstRequestId: string, outcome: CreateOutcome)
    requires id in s.activations
    ensures var s' := CompleteCreate(s, id, firstRequestId, outcome);
            Replaced(s, s', id) && s'.activations[id].status !in {Pending, ReadyToActivate}
  {
  }

  lemma WithServerIdReplaces(s: State, id: string, serverId: string)
    requires id in s.activations
    ensures var s' := WithServerId(s, id, Some(serverId)); Replaced(s, s', id) && s'.activations[id].status.Active?
  {
  }

  lemma CompleteSyncReplaces(s: State, c: Call, answer: StatusOutcome)
    requires c.SyncCall? && c.id in s.activations
    ensures var s' := CompleteSync(s, c, answer);
            s' == s || (Replaced(s, s', c.id) && s'.activations[c.id].status !in {Pending, ReadyToActivate})
  {
    if answer.Shown? {
      MovedReplaces(s, c.id, Quarantined, Some("STATUS_IDENTITY_MISMATCH"), None);
      MovedReplaces(s, c.id, Deactivated, Some("STATUS_SYNCED_DEACTIVATED"), None);
      MovedReplaces(s, c.id, Revoked, Some("STATUS_SYNCED_REVOKED"), None);
      WithServerIdReplaces(s, c.id, answer.view.activationId);
    }
  }

  lemma CompleteLifecycleReplaces(s: State, c: Call, outcome: CreateOutcome)
    requires c.LifecycleCall? && c.id in s.activations
    ensures var s' := CompleteLifecycle(s, c, outcome);
            s' == s || (Replaced(s, s', c.id) && s'.activations[c.id].status !in {Pending, ReadyToActivate})
  {
  }

  /** What an answer to a status query does when it does not lead to a fresh create. */
  lemma CompleteReconcileReplaces(s: State, c: Call, answer: StatusOutcome, bound: nat, fate: Fate)
    requires c.ReconcileCall? && c.id in s.activations && !(answer.NotFound? && c.attemptNo >= bound)
    ensures var (s', call) := CompleteReconcile(s, c, answer, bound, fate);
            && call.None?
            && ((s'.activations == s.activations && s'.order == s.order)
                || (Replaced(s, s', c.id) && s'.activations[c.id].status !in {Pending, ReadyToActivate}))
  {
  }

  /** A settled call leaves the store, or moves its own record past READY_TO_ACTIVATE. */
  lemma SettledKeeps(y: Side, y': Side, c: Call)
    requires Ok(y) && c in y.calls && y'.sent == y.sent && forall d :: d in y'.calls ==> d in y.calls
    requires c.id in y.store.activations
    requires || (y'.store.activations == y.store.activations && y'.store.order == y.store.order)
             || (Replaced(y.store, y'.store, c.id) && y'.store.activations[c.id].status !in {Pending, ReadyToActivate})
    ensures Ok(y')
  {
    assert CallOk(y, c);
    if y'.store.activations == y.store.activations { NoChangeKeeps(y, y'); } else { QuietChangeKeeps(y, y', c.id); }
  }

  lemma CreateDoneKeeps(y: Side, m: Move)
    requires Ok(y) && m.CreateDone? && Possible(y, m)
    ensures Ok(Moved(y, m))
  {
    CompleteCreateReplaces(y.store, m.call.id, m.firstRequestId, m.outcome);
    SettledKeeps(y, Moved(y, m), m.call);
  }

  lemma ReconcileDoneKeeps(y: Side, m: Move)
    requires Ok(y) && m.ReconcileDone? && Possible(y, m)
    ensures Ok(Moved(y, m))
  {
    if m.answer.NotFound? && m.call.attemptNo >= m.bound {
      ReconcileSendsKeeps(y, m);
    } else {
      CompleteReconcileReplaces(y.store, m.call, m.answer, m.bound, m.fate);
      SettledKeeps(y, Moved(y, m), m.call);
    }
  }

  lemma ReconcileSendsKeeps(y: Side, m: Move)
    requires Ok(y) && m.ReconcileDone? && Possible(y, m) && m.answer.NotFound? && m.call.attemptNo >= m.bound
    ensures Ok(Moved(y, m))
  {
    NotedKeeps(y, m.call);
    ReconcileSendsIs(y, m);
    BeginCreateKeeps(AfterNote(y, m.call), m.call.id, m.fate);
  }

  /** The 404 is on record and its call is over; the fresh create is still to come. */
  function AfterNote(y: Side, c: Call): Side
    requires c.ReconcileCall?
  {
    Side(Noted(y.store, c, ResolvedNotFound), y.calls - multiset{c}, y.sent)
  }

  lemma ReconcileSendsIs(y: Side, m: Move)
    requires m.ReconcileDone? && Possible(y, m) && m.answer.NotFound? && m.call.attemptNo >= m.bound
    ensures Moved(y, m) == Begun(AfterNote(y, m.call), BeginCreate(AfterNote(y, m.call).store, m.call.id, m.fate), !m.fate.Lives?)
  {
  }

  lemma NotedKeeps(y: Side, c: Call)
    requires Ok(y) && c.ReconcileCall? && c in y.calls && c.id in y.store.activations
    ensures Ok(AfterNote(y, c)) && !Dead(AfterNote(y, c), c.id)
  {
    assert CallOk(y, c);
    NoChangeKeeps(y, AfterNote(y, c));
  }

  lemma SyncDoneKeeps(y: Side, m: Move)
    requires Ok(y) && m.SyncDone? && Possible(y, m)
    ensures Ok(Moved(y, m))
  {
    CompleteSyncReplaces(y.store, m.call, m.answer);
    SettledKeeps(y, Moved(y, m), m.call);
  }

  lemma LifecycleDoneKeeps(y: Side, m: Move)
    requires Ok(y) && m.LifecycleDone? && Possible(y, m)
    ensures Ok(Moved(y, m))
  {
    CompleteLifecycleReplaces(y.store, m.call, m.outcome);
    SettledKeeps(y, Moved(y, m), m.call);
  }

  lemma MoveKeeps(y: Side, m: Move)
    requires Ok(y) && Fits(y, m)
    ensures Ok(Moved(y, m))
  {
    if Possible(y, m) {
      match m {
        case DoActivate(_, _, _, _, _, _) => ActivateKeeps(y, m);
        case DoResume(id, fate) => ResumeKeeps(y, id, fate);
        case DoReconcile(id) => BeginReconcileKeeps(y, id, false);
        case DoSync(id) => BeginSyncKeeps(y, id);
        case DoLifecycle(id, action) => BeginLifecycleKeeps(y, id, action);
        case CreateDone(_, _, _) => CreateDoneKeeps(y, m);
        case ReconcileDone(_, _, _, _) => ReconcileDoneKeeps(y, m);
        case SyncDone(_, _) => SyncDoneKeeps(y, m);
        case LifecycleDone(_, _) => LifecycleDoneKeeps(y, m);
        case Crash => NoChangeKeeps(y, Moved(y, m));
      }
    }
  }

  lemma {:induction false} RunKeeps(y: Side, moves: seq<Move>)
    requires Ok(y) && AllFit(y, moves)
    ensures Ok(Run(y, moves))
    decreases |moves|
  {
    if moves != [] {
      MoveKeeps(y, moves[0]);
      RunKeeps(Moved(y, moves[0]), moves[1..]);
    }
  }

  // ----- The results -----

  /** A state some run leads to in which keys and (binding, capability) pairs stay one to one. */
  ghost predicate Reachable(y: Side) {
    exists moves :: AllFit(START, moves) && y == Run(START, moves)
  }

  lemma ReachableIsOk(y: Side)
    requires Reachable(y)
    ensures Ok(y)
  {
    var moves :| AllFit(START, moves) && y == Run(START, moves);
    RunKeeps(START, moves);
  }

  /** Why a create may go out for `id` in this move. */
  predicate MaySend(y: Side, m: Move, id: string) {
    || (m.DoActivate? && id == m.newId && id !in y.store.activations)
    || (id in y.store.activations && y.store.activations[id].status in {Pending, ReadyToActivate})
    || (m.ReconcileDone? && m.answer.NotFound? && m.call.ReconcileCall? && m.call.id == id && m.call.attemptNo >= m.bound)
    || (m.DoResume? && m.id == id && id in y.store.activations && y.store.activations[id].status.Active?)
  }

  /** The move sends nothing, or one create that it may send. */
  predicate Explained(y: Side, m: Move) {
    var sent := Moved(y, m).sent;
    sent == y.sent || (|sent| == |y.sent| + 1 && sent[..|y.sent|] == y.sent && MaySend(y, m, sent[|y.sent|]))
  }

  /** What a begun create adds to the sends. */
  lemma BegunSends(y: Side, s: State, id: string, fate: Fate, dies: bool)
    requires id in s.activations
    ensures var sent := Begun(y, BeginCreate(s, id, fate), dies).sent; sent == y.sent || sent == y.sent + [id]
  {
  }

  lemma ActivateExplained(y: Side, m: Move)
    requires Ok(y) && Fits(y, m) && m.DoActivate?
    ensures Explained(y, m)
  {
    if Possible(y, m) {
      match ActivateGate(y.store, m.disabled, m.q, m.p, m.stableKey) {
        case ResumeKey(id) => ResumeKeyExplained(y, m, id);
        case Fresh(key, patchesOrgId) => FreshExplained(y, m, key, patchesOrgId);
        case _ => OtherGatesSendNothing(y, m);
      }
    }
  }

  lemma ResumeKeyExplained(y: Side, m: Move, id: string)
    requires Ok(y) && Fits(y, m) && m.DoActivate? && Possible(y, m)
    requires ActivateGate(y.store, m.disabled, m.q, m.p, m.stableKey) == ResumeKey(id)
    ensures Explained(y, m)
  {
    ResumedKeyIsUnsent(y, m);
    ResumeKeyIs(y, m);
    BegunSends(y, y.store, id, m.fate, !m.fate.Lives?);
  }

  lemma FreshExplained(y: Side, m: Move, key: string, patchesOrgId: string)
    requires Ok(y) && m.DoActivate? && Possible(y, m)
    requires ActivateGate(y.store, m.disabled, m.q, m.p, m.stableKey) == Fresh(key, patchesOrgId)
    ensures Explained(y, m)
  {
    FreshIs(y, m, key, patchesOrgId);
    var y1 := y.(store := Put(y.store, NewRecord(m.newId, key, m.q, patchesOrgId, Pending, None)));
    BegunSends(y1, y1.store, m.newId, m.fate, !m.fate.Lives?);
  }

  lemma OtherGatesSendNothing(y: Side, m: Move)
    requires m.DoActivate? && Possible(y, m)
    requires var g := ActivateGate(y.store, m.disabled, m.q, m.p, m.stableKey); !g.ResumeKey? && !g.Fresh?
    ensures Moved(y, m).sent == y.sent
  {
  }

  lemma ResumeExplained(y: Side, m: Move)
    requires Ok(y) && m.DoResume?
    ensures Explained(y, m)
  {
  }

  lemma ReconcileExplained(y: Side, m: Move)
    requires m.ReconcileDone?
    ensures Explained(y, m)
  {
  }

  lemma OthersExplained(y: Side, m: Move)
    requires !m.DoActivate? && !m.DoResume? && !m.ReconcileDone?
    ensures Moved(y, m).sent == y.sent
  {
  }

  /**
   No blind re-send. Over every interleaving and with processes dying between any two writes, a
   create goes out only for a new or unsent record, or after a 404 at the bound, or because an
   ACTIVE activation was resumed.
   */
  lemma NoBlindResend(y: Side, m: Move)
    requires Reachable(y) && Fits(y, m)
    ensures Explained(y, m)
  {
    ReachableIsOk(y);
    if m.DoActivate? { ActivateExplained(y, m); }
    else if m.DoResume? { ResumeExplained(y, m); }
    else if m.ReconcileDone? { ReconcileExplained(y, m); }
    else { OthersExplained(y, m); }
  }

  /** PENDING means nothing was sent; a call in flight keeps its record past READY_TO_ACTIVATE. */
  lemma SentIsRecorded(y: Side)
    requires Reachable(y)
    ensures forall id :: id in y.sent ==> id in y.store.activations && !y.store.activations[id].status.Pending?
    ensures forall c :: c in y.calls && c.CreateCall? ==>
              var after := Moved(y, Crash).store;
              c.id in after.activations && after.activations[c.id].status !in {Pending, ReadyToActivate}
  {
    ReachableIsOk(y);
    forall c | c in y.calls && c.CreateCall?
      ensures c.id in y.store.activations && y.store.activations[c.id].status !in {Pending, ReadyToActivate}
    {
      assert CallOk(y, c);
    }
  }

  /** At most one record of a key was ever sent. */
  lemma OneSenderPerKey(y: Side, a: string, b: string)
    requires Reachable(y) && a in y.sent && b in y.sent
    ensures a in y.store.activations && b in y.store.activations
    ensures y.store.activations[a].idempotencyKey == y.store.activations[b].idempotencyKey ==> a == b
  {
    ReachableIsOk(y);
    assert !Twins(y.store, a, b);
  }
}
