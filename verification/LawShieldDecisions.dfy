/**
 What every run of the processor keeps: the four tables agree, a request is stored whole or not
 at all, and what has been decided stays decided.
 */
module LawShieldDecisions {
  import opened Wrappers
  import opened LawShieldStore
  import opened LawShieldProcessor
  import Redaction

  // ----- The four-table invariant -----

  predicate BindingHolds(s: Tables, key: string) {
    key in s.idempotency && key in s.byKey
    && var b := s.idempotency[key];
       && s.byKey[key] == b.transferId
       && b.transferId != ""
       && b.transferId in s.transfers
       && s.transfers[b.transferId].payloadHash == b.payloadHash
       && s.transfers[b.transferId].status == b.outcome
       && (b.outcome.Accepted? ==> b.receiptId == Some(ReceiptIdFor(b.transferId)))
  }

  predicate TransferHolds(s: Tables, id: string) {
    id in s.transfers
    && s.transfers[id].transferId == id
    && (!s.transfers[id].status.Accepted? ==> s.transfers[id].receiptId.None?)
    && (s.transfers[id].status.Accepted? ==>
          && s.transfers[id].receiptId == Some(ReceiptIdFor(id))
          && ReceiptIdFor(id) in s.receipts)
  }

  predicate ReceiptHolds(s: Tables, id: string) {
    id in s.receipts
    && var r := s.receipts[id];
       && r.receiptId == id == ReceiptIdFor(r.transferId)
       && r.transferId in s.transfers
       && s.transfers[r.transferId].status.Accepted?
       && s.transfers[r.transferId].payloadHash == r.payloadHash
  }

  predicate Numbered(audit: seq<AuditEvent>) {
    forall i :: 0 <= i < |audit| ==> audit[i].auditSequence == i + 1
  }

  predicate FourTables(s: Tables) {
    && s.byKey.Keys == s.idempotency.Keys
    && (forall key :: key in s.idempotency ==> BindingHolds(s, key))
    && (forall id :: id in s.transfers ==> TransferHolds(s, id))
    && (forall id :: id in s.receipts ==> ReceiptHolds(s, id))
    && Numbered(s.audit)
  }

  /** Tables only gain rows, and the audit trail only grows at its end. */
  predicate Extends(s: Tables, s': Tables) {
    && (forall k :: k in s.idempotency ==> k in s'.idempotency && s'.idempotency[k] == s.idempotency[k])
    && (forall k :: k in s.byKey ==> k in s'.byKey && s'.byKey[k] == s.byKey[k])
    && (forall t :: t in s.transfers ==> t in s'.transfers && s'.transfers[t] == s.transfers[t])
    && (forall r :: r in s.receipts ==> r in s'.receipts && s'.receipts[r] == s.receipts[r])
    && s.audit <= s'.audit
  }

  lemma ReceiptIdsDiffer(a: string, b: string)
    ensures ReceiptIdFor(a) == ReceiptIdFor(b) ==> a == b
  {
    assert ReceiptIdFor(a)[4..] == a && ReceiptIdFor(b)[4..] == b;
  }

  /** The three things a request can do to the decision tables. */
  datatype Effect =
    | NoDecision
    | NewDecision(env: Envelope, record: Transfer, binding: Binding, at: int)
    | SideRecord(aside: Transfer)

  predicate AuditStep(before: seq<AuditEvent>, after: seq<AuditEvent>) {
    before <= after
    && (|after| == |before|
        || (|after| == |before| + 1 && after[|before|].auditSequence == |before| + 1))
  }

  predicate HasEffect(s: Tables, s': Tables, e: Effect) {
    AuditStep(s.audit, s'.audit)
    && match e
       case NoDecision =>
         s'.idempotency == s.idempotency && s'.byKey == s.byKey
         && s'.transfers == s.transfers && s'.receipts == s.receipts
       case NewDecision(env, record, binding, at) =>
         && env.idempotencyKey !in s.idempotency && Admits(s.transfers, record)
         && record.transferId == env.transferId == binding.transferId && record.idempotencyKey == env.idempotencyKey
         && record.payloadHash == env.payloadHash == binding.payloadHash
         && record.status == binding.outcome
         && (if record.status.Accepted? then record.receiptId == binding.receiptId == Some(ReceiptIdFor(env.transferId))
             else record.receiptId.None?)
         && s'.idempotency == s.idempotency[env.idempotencyKey := binding]
         && s'.byKey == s.byKey[env.idempotencyKey := env.transferId]
         && s'.transfers == FirstWins(s.transfers, env.transferId, record)
         && (!record.status.Accepted? ==> s'.receipts == s.receipts)
         && (record.status.Accepted? ==> s'.receipts == WithAcceptedReceipt(s, env, at))
       case SideRecord(record) =>
         && record.status.Quarantined? && record.receiptId.None? && Admits(s.transfers, record)
         && s'.idempotency == s.idempotency && s'.byKey == s.byKey && s'.receipts == s.receipts
         && s'.transfers == FirstWins(s.transfers, record.transferId, record)
  }

  function WithAcceptedReceipt(s: Tables, env: Envelope, at: int): map<string, Receipt> {
    var id := ReceiptIdFor(env.transferId);
    FirstWins(s.receipts, id,
              Receipt(id, env.transferId, env.idempotencyKey, env.payloadHash, at, "PERSISTED"))
  }

  lemma EffectExtends(s: Tables, s': Tables, e: Effect)
    requires FourTables(s) && HasEffect(s, s', e)
    ensures Extends(s, s') && Numbered(s'.audit)
  {
  }

  lemma EffectKeepsBindings(s: Tables, s': Tables, e: Effect, key: string)
    requires FourTables(s) && HasEffect(s, s', e) && key in s'.idempotency
    ensures BindingHolds(s', key)
  {
  }

  lemma EffectKeepsTransfers(s: Tables, s': Tables, e: Effect, id: string)
    requires FourTables(s) && HasEffect(s, s', e) && id in s'.transfers
    ensures TransferHolds(s', id)
  {
  }

  lemma EffectKeepsReceipts(s: Tables, s': Tables, e: Effect, id: string)
    requires FourTables(s) && HasEffect(s, s', e) && id in s'.receipts
    ensures ReceiptHolds(s', id)
  {
  }

  lemma EffectKeeps(s: Tables, s': Tables, e: Effect)
    requires FourTables(s) && HasEffect(s, s', e)
    ensures FourTables(s') && Extends(s, s')
  {
    EffectExtends(s, s', e);
    forall key | key in s'.idempotency ensures BindingHolds(s', key) { EffectKeepsBindings(s, s', e, key); }
    forall id | id in s'.transfers ensures TransferHolds(s', id) { EffectKeepsTransfers(s, s', e, id); }
    forall id | id in s'.receipts ensures ReceiptHolds(s', id) { EffectKeepsReceipts(s, s', e, id); }
  }

  lemma RefuseEffect(s: Tables, fp: FailPoints, nonce: string, env: Envelope,
                     refusal: Redaction.Refusal, now: int) returns (e: Effect)
    requires env.idempotencyKey !in s.idempotency
    ensures HasEffect(s, Refuse(s, fp, nonce, env, refusal, now).0, e)
    ensures e.NoDecision? || (e.NewDecision? && e.env == env)
  {
    var (s', out) := Refuse(s, fp, nonce, env, refusal, now);
    if out.kind.ErrorKind? { return NoDecision; }
    var status := StatusOfRefusal(refusal.code);
    e := NewDecision(env, RefusedRecord(env, refusal.code, now),
                     Binding(env.transferId, env.payloadHash, status, None, None, Some(refusal.code)), now);
  }

  lemma AcceptEffect(s: Tables, fp: FailPoints, nonce: string, env: Envelope, fields: seq<string>, now: int)
    returns (e: Effect)
    requires env.idempotencyKey !in s.idempotency
    ensures HasEffect(s, Accept(s, fp, nonce, env, fields, now).0, e)
    ensures e.NoDecision? || (e.NewDecision? && e.env == env)
  {
    var (s', out) := Accept(s, fp, nonce, env, fields, now);
    if out.kind.ErrorKind? { return NoDecision; }
    assert s'.receipts == WithAcceptedReceipt(s, env, now);
    e := NewDecision(env, AcceptedRecord(env, fields, now),
                     Binding(env.transferId, env.payloadHash, Accepted,
                             Some(ReceiptIdFor(env.transferId)), Some(now), None), now);
  }

  /** A contradiction is recorded aside, or the tables stay as they are. */
  lemma QuarantineEffect(s: Tables, fp: FailPoints, nonce: string, env: Envelope, code: string,
                         wallClock: int) returns (e: Effect)
    ensures HasEffect(s, Quarantine(s, fp, nonce, env, code, wallClock).0, e)
    ensures !e.NewDecision?
  {
    if env.transferId in s.transfers && s.transfers[env.transferId].payloadHash != env.payloadHash {
      ContentConflictEffect(s, fp, nonce, env, code, wallClock);
      e := NoDecision;
    } else {
      e := SideRecordEffect(s, fp, nonce, env, code, wallClock);
    }
  }

  lemma ContentConflictEffect(s: Tables, fp: FailPoints, nonce: string, env: Envelope, code: string, wallClock: int)
    requires env.transferId in s.transfers && s.transfers[env.transferId].payloadHash != env.payloadHash
    ensures HasEffect(s, Quarantine(s, fp, nonce, env, code, wallClock).0, NoDecision)
  {
  }

  lemma SideRecordEffect(s: Tables, fp: FailPoints, nonce: string, env: Envelope, code: string, wallClock: int)
    returns (e: Effect)
    requires env.transferId !in s.transfers || s.transfers[env.transferId].payloadHash == env.payloadHash
    ensures HasEffect(s, Quarantine(s, fp, nonce, env, code, wallClock).0, e)
    ensures !e.NewDecision?
  {
    var aside := TransferFor(env, ConflictIdFor(env.transferId), Quarantined, None, wallClock, Some(code), []);
    if TransferWriteFailure(s, fp, aside).Some? || fp.auditWrite { return NoDecision; }
    e := SideRecord(aside);
  }

  lemma NewKeyEffect(s: Tables, fp: FailPoints, nonce: string, env: Envelope, verdict: Verdict,
                     now: int, wallClock: int) returns (e: Effect)
    requires nonce !in s.nonces && env.idempotencyKey !in s.idempotency
    ensures HasEffect(s, Decide(s, fp, nonce, env, verdict, now, wallClock).0, e)
    ensures e.NewDecision? ==> e.env == env
  {
    match verdict {
      case Failure(refusal) => e := RefuseEffect(s, fp, nonce, env, refusal, now);
      case Success(fields) => e := AcceptEffect(s, fp, nonce, env, fields, now);
    }
  }

  lemma KnownKeyEffect(s: Tables, fp: FailPoints, nonce: string, env: Envelope, verdict: Verdict,
                       now: int, wallClock: int) returns (e: Effect)
    requires nonce !in s.nonces && env.idempotencyKey in s.idempotency
    ensures HasEffect(s, Decide(s, fp, nonce, env, verdict, now, wallClock).0, e)
    ensures !e.NewDecision?
  {
    var b := s.idempotency[env.idempotencyKey];
    e := NoDecision;
    if b.transferId != env.transferId || b.payloadHash != env.payloadHash {
      e := QuarantineEffect(s, fp, nonce, env, "IDEMPOTENCY_KEY_CONFLICT", wallClock);
    } else if b.outcome.Accepted? && (b.receiptId.None? || b.receiptId.value !in s.receipts) {
      e := QuarantineEffect(s, fp, nonce, env, "IDEMPOTENCY_RECEIPT_DIVERGENCE", wallClock);
    }
  }

  lemma DecideEffect(s: Tables, fp: FailPoints, nonce: string, env: Envelope, verdict: Verdict,
                     now: int, wallClock: int) returns (e: Effect)
    ensures HasEffect(s, Decide(s, fp, nonce, env, verdict, now, wallClock).0, e)
    ensures e.NewDecision? ==> e.env == env
  {
    if nonce in s.nonces { e := NoDecision; }
    else if env.idempotencyKey in s.idempotency { e := KnownKeyEffect(s, fp, nonce, env, verdict, now, wallClock); }
    else { e := NewKeyEffect(s, fp, nonce, env, verdict, now, wallClock); }
  }

  /** Whatever the screening settles on its own decides nothing. */
  lemma ScreenedEffect(s: Tables, fp: FailPoints, disabled: bool, r: Request, verdict: Verdict, now: int,
                       wallClock: int)
    requires disabled || !Screen(r, now).Proceed?
    ensures HasEffect(s, Process(s, fp, disabled, r, verdict, now, wallClock).0, NoDecision)
  {
  }

  /** The rest comes with a nonce and a valid envelope, and is decided. */
  lemma ScreenPassesOn(s: Tables, fp: FailPoints, r: Request, verdict: Verdict, now: int, wallClock: int)
    requires Screen(r, now).Proceed?
    ensures r.body.Valid? && r.nonce.Some?
    ensures Process(s, fp, false, r, verdict, now, wallClock)
            == Decide(s, fp, r.nonce.value, r.body.envelope, verdict, now, wallClock)
  {
  }

  lemma ProcessEffect(s: Tables, fp: FailPoints, disabled: bool, r: Request, verdict: Verdict,
                      now: int, wallClock: int) returns (e: Effect)
    ensures HasEffect(s, Process(s, fp, disabled, r, verdict, now, wallClock).0, e)
  {
    if disabled || !Screen(r, now).Proceed? {
      ScreenedEffect(s, fp, disabled, r, verdict, now, wallClock);
      e := NoDecision;
    } else {
      ScreenPassesOn(s, fp, r, verdict, now, wallClock);
      e := DecideEffect(s, fp, r.nonce.value, r.body.envelope, verdict, now, wallClock);
    }
  }

  /** One request, under any fail points, clocks and verdict, keeps the invariant and all rows. */
  lemma ProcessKeeps(s: Tables, fp: FailPoints, disabled: bool, r: Request, verdict: Verdict,
                     now: int, wallClock: int)
    requires FourTables(s)
    ensures var s' := Process(s, fp, disabled, r, verdict, now, wallClock).0;
            FourTables(s') && Extends(s, s')
  {
    var e := ProcessEffect(s, fp, disabled, r, verdict, now, wallClock);
    EffectKeeps(s, Process(s, fp, disabled, r, verdict, now, wallClock).0, e);
  }

  // ----- Runs -----

  /** One request with everything that surrounds it: fail points, kill switch, verdict, clocks. */
  datatype Step = Step(fp: FailPoints, disabled: bool, request: Request, verdict: Verdict,
                       now: int, wallClock: int)

  function Apply(s: Tables, step: Step): (Tables, Outcome) {
    Process(s, step.fp, step.disabled, step.request, step.verdict, step.now, step.wallClock)
  }

  function After(s: Tables, steps: seq<Step>): Tables
    decreases |steps|
  {
    if steps == [] then s else After(Apply(s, steps[0]).0, steps[1..])
  }

  lemma {:induction false} RunKeeps(s: Tables, steps: seq<Step>)
    requires FourTables(s)
    ensures FourTables(After(s, steps)) && Extends(s, After(s, steps))
    decreases |steps|
  {
    if steps != [] {
      var step := steps[0];
      ProcessKeeps(s, step.fp, step.disabled, step.request, step.verdict, step.now, step.wallClock);
      RunKeeps(Apply(s, step).0, steps[1..]);
    }
  }

  /**
   In every reachable store: bindings, transfers, the secondary index and receipts agree; an
   accepted transfer has exactly one receipt and no other transfer has any; events are numbered
   1, 2, 3 and so on.
   */
  lemma ReachableTablesAgree(steps: seq<Step>)
    ensures var s := After(EMPTY_TABLES, steps);
            && FourTables(s)
            && (forall id :: id in s.transfers && s.transfers[id].status.Accepted? ==>
                  exists r :: r in s.receipts && s.receipts[r].transferId == id
                              && s.receipts[r].payloadHash == s.transfers[id].payloadHash)
            && (forall r, q :: r in s.receipts && q in s.receipts ==>
                  (s.receipts[r].transferId == s.receipts[q].transferId ==> r == q))
  {
    RunKeeps(EMPTY_TABLES, steps);
    var s := After(EMPTY_TABLES, steps);
    forall id | id in s.transfers && s.transfers[id].status.Accepted?
      ensures exists r :: r in s.receipts && s.receipts[r].transferId == id
                          && s.receipts[r].payloadHash == s.transfers[id].payloadHash
    {
      assert TransferHolds(s, id);
      assert ReceiptHolds(s, ReceiptIdFor(id));
      ReceiptIdsDiffer(id, s.receipts[ReceiptIdFor(id)].transferId);
    }
    forall r, q | r in s.receipts && q in s.receipts && s.receipts[r].transferId == s.receipts[q].transferId
      ensures r == q
    {
      assert ReceiptHolds(s, r) && ReceiptHolds(s, q);
    }
  }

  // ----- All or nothing -----

  predicate Accepts(out: Outcome) {
    out.Responded? && out.reply.Acceptance?
  }

  /** Every table but the audit trail is as it was. */
  predicate SameTables(s: Tables, s': Tables) {
    s' == s.(audit := s'.audit)
  }

  /** The key was decided by this request: binding, index and transfer say so together. */
  predicate DecidedAs(s: Tables, env: Envelope, status: Status) {
    env.idempotencyKey in s.idempotency && env.idempotencyKey in s.byKey && env.transferId in s.transfers
    && s.idempotency[env.idempotencyKey].transferId == env.transferId
    && s.idempotency[env.idempotencyKey].payloadHash == env.payloadHash
    && s.idempotency[env.idempotencyKey].outcome == status
    && s.byKey[env.idempotencyKey] == env.transferId
    && s.transfers[env.transferId].status == status
    && s.transfers[env.transferId].payloadHash == env.payloadHash
  }

  /** The complete stored effect of a request that was answered with this outcome. */
  predicate FullyStored(s: Tables, s': Tables, nonce: string, env: Envelope, out: Outcome) {
    && nonce !in s.nonces && nonce in s'.nonces && s'.nonces[nonce].transferId == env.transferId
    && |s'.audit| == |s.audit| + 1
    && out.Responded?
    && match out.kind
       case AcceptedKind =>
         DecidedAs(s', env, Accepted) && ReceiptIdFor(env.transferId) in s'.receipts
         && out.reply == WireShape(s'.receipts[ReceiptIdFor(env.transferId)])
       case RejectedKind => DecidedAs(s', env, Rejected) && s'.receipts == s.receipts
       case QuarantinedKind =>
         && s'.receipts == s.receipts
         && (if env.idempotencyKey !in s.idempotency then DecidedAs(s', env, Quarantined)
             else
               && s'.idempotency == s.idempotency && s'.byKey == s.byKey
               && (|| (env.transferId in s.transfers && s.transfers[env.transferId].payloadHash != env.payloadHash
                       && s'.transfers == s.transfers)
                   || (var id := ConflictIdFor(env.transferId);
                       id in s'.transfers && s'.transfers[id].status.Quarantined?
                       && s'.transfers[id].payloadHash == env.payloadHash)))
       case DuplicateKind => s' == s.(nonces := s'.nonces, audit := s'.audit)
       case ErrorKind => false
  }

  /** Answered with an error and nothing stored, or answered otherwise and all of it stored. */
  predicate StoredOrNot(s: Tables, s': Tables, nonce: string, env: Envelope, out: Outcome) {
    if out.Thrown? || out.kind.ErrorKind? then SameTables(s, s') else FullyStored(s, s', nonce, env, out)
  }

  lemma RefusalStoredOrNot(s: Tables, fp: FailPoints, nonce: string, env: Envelope,
                           refusal: Redaction.Refusal, now: int)
    requires nonce !in s.nonces && env.idempotencyKey !in s.idempotency
    ensures var (s', out) := Refuse(s, fp, nonce, env, refusal, now);
            StoredOrNot(s, s', nonce, env, out) && !Accepts(out)
  {
  }

  lemma AcceptanceStoredOrNot(s: Tables, fp: FailPoints, nonce: string, env: Envelope,
                              fields: seq<string>, now: int)
    requires nonce !in s.nonces && env.idempotencyKey !in s.idempotency
    ensures var (s', out) := Accept(s, fp, nonce, env, fields, now);
            && StoredOrNot(s, s', nonce, env, out)
            && (Accepts(out) <==> out.kind.AcceptedKind?)
  {
  }

  lemma QuarantineStoredOrNot(s: Tables, fp: FailPoints, nonce: string, env: Envelope, code: string,
                              wallClock: int)
    requires nonce !in s.nonces && env.idempotencyKey in s.idempotency
    ensures var (s', out) := Quarantine(s, fp, nonce, env, code, wallClock);
            StoredOrNot(s, s', nonce, env, out) && !Accepts(out)
  {
  }

  lemma ReplayStoredOrNot(s: Tables, fp: FailPoints, nonce: string, env: Envelope, b: Binding,
                          reply: Reply, now: int)
    requires nonce !in s.nonces
    ensures var (s', out) := Replay(s, fp, nonce, env, b, reply, now);
            && StoredOrNot(s, s', nonce, env, out)
            && (out.Responded? ==> out.kind.DuplicateKind? && out.reply == reply)
  {
  }

  /** What an acceptance told to the caller of `env` rests on. */
  predicate Backed(s: Tables, env: Envelope, reply: Reply) {
    DecidedAs(s, env, Accepted) && ReceiptIdFor(env.transferId) in s.receipts
    && reply == WireShape(s.receipts[ReceiptIdFor(env.transferId)])
  }

  lemma NewKeyStoredOrNot(s: Tables, fp: FailPoints, nonce: string, env: Envelope, verdict: Verdict,
                          now: int, wallClock: int)
    requires nonce !in s.nonces && env.idempotencyKey !in s.idempotency
    ensures var (s', out) := Decide(s, fp, nonce, env, verdict, now, wallClock);
            && StoredOrNot(s, s', nonce, env, out)
            && (Accepts(out) ==> Backed(s', env, out.reply))
  {
    match verdict {
      case Failure(refusal) => RefusalStoredOrNot(s, fp, nonce, env, refusal, now);
      case Success(fields) => AcceptanceStoredOrNot(s, fp, nonce, env, fields, now);
    }
  }

  lemma KnownKeyStoredOrNot(s: Tables, fp: FailPoints, nonce: string, env: Envelope, verdict: Verdict,
                            now: int, wallClock: int)
    requires nonce !in s.nonces && BindingHolds(s, env.idempotencyKey)
    requires TransferHolds(s, s.idempotency[env.idempotencyKey].transferId)
    ensures var (s', out) := Decide(s, fp, nonce, env, verdict, now, wallClock);
            && StoredOrNot(s, s', nonce, env, out)
            && (Accepts(out) ==> Backed(s', env, out.reply))
  {
    var b := s.idempotency[env.idempotencyKey];
    if b.transferId != env.transferId || b.payloadHash != env.payloadHash {
      QuarantineStoredOrNot(s, fp, nonce, env, "IDEMPOTENCY_KEY_CONFLICT", wallClock);
    } else if b.outcome.Accepted? {
      ReplayStoredOrNot(s, fp, nonce, env, b, WireShape(s.receipts[b.receiptId.value]), now);
    } else {
      ReplayStoredOrNot(s, fp, nonce, env, b,
        Denial(b.errorCode, Some(env.transferId), Some(env.idempotencyKey), false, None), now);
    }
  }

  lemma DecideStoredOrNot(s: Tables, fp: FailPoints, nonce: string, env: Envelope, verdict: Verdict,
                          now: int, wallClock: int)
    requires FourTables(s) && nonce !in s.nonces
    ensures var (s', out) := Decide(s, fp, nonce, env, verdict, now, wallClock);
            && StoredOrNot(s, s', nonce, env, out)
            && (Accepts(out) ==> Backed(s', env, out.reply))
  {
    if env.idempotencyKey in s.idempotency {
      assert BindingHolds(s, env.idempotencyKey);
      assert TransferHolds(s, s.idempotency[env.idempotencyKey].transferId);
      KnownKeyStoredOrNot(s, fp, nonce, env, verdict, now, wallClock);
    } else {
      NewKeyStoredOrNot(s, fp, nonce, env, verdict, now, wallClock);
    }
  }

  /** A request stopped at the screening, or for its nonce, leaves all tables but the audit trail. */
  lemma ScreenedIsSame(s: Tables, step: Step)
    requires step.disabled || !Screen(step.request, step.now).Proceed?
    ensures SameTables(s, Apply(s, step).0)
  {
  }

  lemma ReplayIsSame(s: Tables, step: Step)
    requires !step.disabled && Screen(step.request, step.now).Proceed? && Screen(step.request, step.now).nonce in s.nonces
    ensures SameTables(s, Apply(s, step).0)
  {
  }

  predicate WholeOrNothing(s: Tables, step: Step, s': Tables, out: Outcome) {
    var r := step.request;
    && (SameTables(s, s')
        || (r.body.Valid? && r.nonce.Some? && FullyStored(s, s', r.nonce.value, r.body.envelope, out)))
    && (out.Thrown? || out.kind.ErrorKind? ==> SameTables(s, s'))
  }

  lemma DecidedIsWholeOrNothing(s: Tables, step: Step)
    requires FourTables(s) && !step.disabled && Screen(step.request, step.now).Proceed?
    requires Screen(step.request, step.now).nonce !in s.nonces
    ensures WholeOrNothing(s, step, Apply(s, step).0, Apply(s, step).1)
  {
    var r := step.request;
    ScreenPassesOn(s, step.fp, r, step.verdict, step.now, step.wallClock);
    DecideStoredOrNot(s, step.fp, r.nonce.value, r.body.envelope, step.verdict, step.now, step.wallClock);
  }

  /**
   Under every combination of failing writes the tables end either as they were or with the
   whole of the request in them; errors, thrown or answered, always leave them as they were.
   */
  lemma AllOrNothing(s: Tables, step: Step)
    requires FourTables(s)
    ensures var (s', out) := Apply(s, step);
            WholeOrNothing(s, step, s', out) && s.audit <= s'.audit && Numbered(s'.audit)
  {
    var r := step.request;
    ProcessKeeps(s, step.fp, step.disabled, r, step.verdict, step.now, step.wallClock);
    if step.disabled || !Screen(r, step.now).Proceed? { ScreenedIsSame(s, step); }
    else if Screen(r, step.now).nonce in s.nonces { ReplayIsSame(s, step); }
    else { DecidedIsWholeOrNothing(s, step); }
  }

  /** An acceptance is only ever told once binding, transfer and receipt are stored. */
  lemma AcceptanceIsDurable(s: Tables, step: Step)
    requires FourTables(s) && Accepts(Apply(s, step).1)
    ensures var (s', out) := Apply(s, step);
            && step.request.body.Valid?
            && var env := step.request.body.envelope;
               && Backed(s', env, out.reply)
               && out.reply.receiptId == ReceiptIdFor(env.transferId)
               && out.reply.transferId == env.transferId && out.reply.payloadHash == env.payloadHash
  {
    var (s', out) := Apply(s, step);
    var r := step.request;
    assert Screen(r, step.now).Proceed? && r.nonce.value !in s.nonces;
    var env := r.body.envelope;
    DecideStoredOrNot(s, step.fp, r.nonce.value, env, step.verdict, step.now, step.wallClock);
    ProcessKeeps(s, step.fp, step.disabled, r, step.verdict, step.now, step.wallClock);
    BackedFields(s', env, out.reply);
  }

  lemma BackedFields(s: Tables, env: Envelope, reply: Reply)
    requires FourTables(s) && Backed(s, env, reply)
    ensures reply.receiptId == ReceiptIdFor(env.transferId)
    ensures reply.transferId == env.transferId && reply.payloadHash == env.payloadHash
  {
    assert ReceiptHolds(s, ReceiptIdFor(env.transferId));
    ReceiptIdsDiffer(env.transferId, s.receipts[ReceiptIdFor(env.transferId)].transferId);
  }

  // ----- Decisions are permanent -----

  /**
   Two acceptances in one run, however far apart, for the same key or for the same transfer, are
   equal in every field, and each carries the payload hash of the request it answers.
   */
  lemma AcceptancesAgree(s: Tables, first: Step, between: seq<Step>, later: Step)
    requires FourTables(s)
    requires Accepts(Apply(s, first).1)
    requires Accepts(Apply(After(Apply(s, first).0, between), later).1)
    requires first.request.body.Valid? && later.request.body.Valid?
    requires var e1, e2 := first.request.body.envelope, later.request.body.envelope;
             e1.idempotencyKey == e2.idempotencyKey || e1.transferId == e2.transferId
    ensures var o1 := Apply(s, first).1;
            var o2 := Apply(After(Apply(s, first).0, between), later).1;
            && o1.reply == o2.reply
            && o1.reply.payloadHash == first.request.body.envelope.payloadHash
            && o2.reply.payloadHash == later.request.body.envelope.payloadHash
  {
    var s1 := Apply(s, first).0;
    AcceptanceIsDurable(s, first);
    ProcessKeeps(s, first.fp, first.disabled, first.request, first.verdict, first.now, first.wallClock);
    RunKeeps(s1, between);
    var s2 := After(s1, between);
    AcceptanceIsDurable(s2, later);
    ProcessKeeps(s2, later.fp, later.disabled, later.request, later.verdict, later.now, later.wallClock);
  }

  /** A key once decided against never yields an acceptance again. */
  lemma RefusalsAreFinal(s: Tables, key: string, between: seq<Step>, later: Step)
    requires FourTables(s) && key in s.idempotency && !s.idempotency[key].outcome.Accepted?
    requires later.request.body.Valid? && later.request.body.envelope.idempotencyKey == key
    ensures !Accepts(Apply(After(s, between), later).1)
  {
    RunKeeps(s, between);
    var s' := After(s, between);
    if Accepts(Apply(s', later).1) {
      AcceptanceIsDurable(s', later);
      ProcessKeeps(s', later.fp, later.disabled, later.request, later.verdict, later.now, later.wallClock);
      assert false;
    }
  }

  // ----- Status lookup -----

  datatype StatusReport =
    | NotFound
    | Found(transferId: string, status: Status, payloadHash: string, receiptId: Option<string>,
            lastErrorCode: Option<string>, bindingOutcome: Option<Status>,
            receipt: Option<Receipt>, auditEventCount: nat)

  function Concerning(audit: seq<AuditEvent>, transferId: string): nat {
    if audit == [] then 0
    else (if audit[0].entry.transferId == Some(transferId) then 1 else 0) + Concerning(audit[1..], transferId)
  }

  function ReportOn(s: Tables, t: Transfer): StatusReport {
    Found(t.transferId, t.status, t.payloadHash, t.receiptId, t.lastErrorCode,
          if t.idempotencyKey in s.idempotency then Some(s.idempotency[t.idempotencyKey].outcome) else None,
          if Truthy(t.receiptId) && t.receiptId.value in s.receipts then Some(s.receipts[t.receiptId.value]) else None,
          Concerning(s.audit, t.transferId))
  }

  /** Looks a transfer up by its id if one is given, else by idempotency key. */
  function BuildStatus(s: Tables, transferId: Option<string>, key: string): StatusReport {
    if Truthy(transferId) then
      if transferId.value in s.transfers then ReportOn(s, s.transfers[transferId.value]) else NotFound
    else if key in s.byKey && s.byKey[key] != "" && s.byKey[key] in s.transfers then
      ReportOn(s, s.transfers[s.byKey[key]])
    else NotFound
  }

  /** The report on a key in a consistent store, from the key's own binding and its transfer's row. */
  lemma StatusReportsTheBinding(s: Tables, key: string)
    requires BindingHolds(s, key) && TransferHolds(s, s.idempotency[key].transferId)
    ensures var report := BuildStatus(s, None, key);
            var b := s.idempotency[key];
            && report.Found? && report.transferId == b.transferId
            && report.status == b.outcome && report.payloadHash == b.payloadHash
            && (b.outcome.Accepted? ==>
                  report.receiptId == b.receiptId && ReceiptIdFor(b.transferId) in s.receipts
                  && report.receipt == Some(s.receipts[ReceiptIdFor(b.transferId)]))
            && (!b.outcome.Accepted? ==> report.receipt.None? && report.receiptId.None?)
            && var own := s.transfers[b.transferId].idempotencyKey;
               (own in s.idempotency ==> report.bindingOutcome == Some(s.idempotency[own].outcome))
  {
  }

  /**
   Asked by key, the processor reports the key's decision, now and after any further requests:
   the receipt of an acceptance, no receipt otherwise. The binding outcome it adds is read under the
   key the row was first stored with, and is the same decision if that key is bound to the row.
   */
  lemma StatusReportsTheDecision(s: Tables, key: string, later: seq<Step>)
    requires FourTables(s) && key in s.idempotency
    ensures var report := BuildStatus(After(s, later), None, key);
            var b := s.idempotency[key];
            && report.Found? && report.transferId == b.transferId
            && report.status == b.outcome && report.payloadHash == b.payloadHash
            && (b.outcome.Accepted? ==>
                  report.receiptId == b.receiptId
                  && report.receipt.Some? && report.receipt.value.transferId == b.transferId)
            && (!b.outcome.Accepted? ==> report.receipt.None? && report.receiptId.None?)
            && b.transferId in s.transfers
            && var own := s.transfers[b.transferId].idempotencyKey;
               (own in s.idempotency && s.idempotency[own].transferId == b.transferId ==>
                  report.bindingOutcome == Some(b.outcome))
  {
    RunKeeps(s, later);
    var s' := After(s, later);
    var b := s.idempotency[key];
    assert BindingHolds(s, key) && BindingHolds(s', key) && TransferHolds(s', b.transferId);
    StatusReportsTheBinding(s', key);
    var own := s.transfers[b.transferId].idempotencyKey;
    if own in s.idempotency { assert BindingHolds(s, own); }
    if b.outcome.Accepted? { ReceiptIsOf(s', b.transferId); }
  }

  lemma ReceiptIsOf(s: Tables, transferId: string)
    requires FourTables(s) && ReceiptIdFor(transferId) in s.receipts
    ensures s.receipts[ReceiptIdFor(transferId)].transferId == transferId
  {
    assert ReceiptHolds(s, ReceiptIdFor(transferId));
    ReceiptIdsDiffer(transferId, s.receipts[ReceiptIdFor(transferId)].transferId);
  }
}
