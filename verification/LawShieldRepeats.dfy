/**
 What the processor does with every request after the first for a key, told by the key's binding and
 the tables: a repeat is answered from what is stored, a contradiction is set aside.
 */
module LawShieldRepeats {
  import opened Wrappers
  import opened LawShieldStore
  import opened LawShieldProcessor
  import D = LawShieldDecisions
  import opened LawShieldAdmissions

  /** A presentable request under a fresh nonce, for a key that is bound. */
  predicate LaterDelivery(s: Tables, r: Request, now: int) {
    Presentable(r, now) && r.nonce.value !in s.nonces && r.body.envelope.idempotencyKey in s.idempotency
  }

  /** It asks for the transfer and the content the key is bound to. */
  predicate IsRepeat(s: Tables, env: Envelope)
    requires env.idempotencyKey in s.idempotency
  {
    var b := s.idempotency[env.idempotencyKey];
    b.transferId == env.transferId && b.payloadHash == env.payloadHash
  }

  lemma LaterDeliveryDecides(s: Tables, step: D.Step)
    requires !step.disabled && LaterDelivery(s, step.request, step.now)
    ensures D.Apply(s, step)
            == Decide(s, step.fp, step.request.nonce.value, step.request.body.envelope, step.verdict, step.now, step.wallClock)
  {
    ScreenIff(step.request, step.now);
    D.ScreenPassesOn(s, step.fp, step.request, step.verdict, step.now, step.wallClock);
  }

  predicate Audits(s: Tables, s': Tables, entry: AuditEntry) {
    s'.audit == s.audit + [AuditEvent(|s.audit| + 1, entry)]
  }

  /** The stored decision, as it is told: the receipt of an acceptance, the code of any other. */
  predicate Tells(s: Tables, b: Binding, reply: Reply) {
    if b.outcome.Accepted? then
      && b.receiptId.Some? && b.receiptId.value in s.receipts && reply.Acceptance?
      && var receipt := s.receipts[b.receiptId.value];
         && reply.transferId == b.transferId && reply.receiptId == b.receiptId.value
         && reply.transferId == receipt.transferId && reply.payloadHash == receipt.payloadHash
    else reply.Denial? && reply.error == b.errorCode && reply.aboutTransfer == Some(b.transferId)
  }

  function Word(status: Status): string {
    match status
    case Accepted => "ACCEPTED"
    case Rejected => "REJECTED"
    case Quarantined => "QUARANTINED"
  }

  lemma ReplayTells(s: Tables, step: D.Step, nonce: string, env: Envelope)
    requires D.FourTables(s) && nonce !in s.nonces && env.idempotencyKey in s.idempotency && IsRepeat(s, env)
    ensures var (s', out) := Decide(s, step.fp, nonce, env, step.verdict, step.now, step.wallClock);
            var b := s.idempotency[env.idempotencyKey];
            if step.fp.auditWrite then out.Thrown? && s' == s
            else
              && out.Responded? && out.kind.DuplicateKind? && Tells(s, b, out.reply)
              && s' == s.(nonces := s'.nonces, audit := s'.audit)
              && Audits(s, s', AuditEntry(Some(env.transferId), Some(env.idempotencyKey), "DUPLICATE_DELIVERY_COLLAPSED",
                                          Word(b.outcome),
                                          if b.outcome.Accepted? then "DUPLICATE_COLLAPSED_TO_STORED_RECEIPT"
                                          else "DUPLICATE_COLLAPSED_TO_STORED_OUTCOME"))
  {
    var b := s.idempotency[env.idempotencyKey];
    assert D.BindingHolds(s, env.idempotencyKey) && D.TransferHolds(s, b.transferId);
    if b.outcome.Accepted? {
      assert D.ReceiptHolds(s, b.receiptId.value);
      D.ReceiptIdsDiffer(b.transferId, s.receipts[b.receiptId.value].transferId);
    }
  }

  /**
   Every repeat, whatever the business checks would say of it now: it is answered with what the key was
   decided, spends its nonce, adds one audit event and changes nothing else; if that event cannot be
   written, nothing happens at all.
   */
  lemma RepeatSays(s: Tables, step: D.Step)
    requires D.FourTables(s) && !step.disabled && LaterDelivery(s, step.request, step.now)
    requires IsRepeat(s, step.request.body.envelope)
    ensures var (s', out) := D.Apply(s, step);
            var env := step.request.body.envelope;
            var b := s.idempotency[env.idempotencyKey];
            if step.fp.auditWrite then out.Thrown? && s' == s
            else
              && out.Responded? && out.kind.DuplicateKind? && Tells(s, b, out.reply)
              && s' == s.(nonces := s'.nonces, audit := s'.audit) && |s'.audit| == |s.audit| + 1
              && (forall t :: t <= step.now + 600_000 ==> SpentAt(s', step.request.nonce.value, t))
  {
    LaterDeliveryDecides(s, step);
    ReplayTells(s, step, step.request.nonce.value, step.request.body.envelope);
    if !step.fp.auditWrite { DecidedSpends(s, step); }
  }

  predicate OtherContent(s: Tables, env: Envelope) {
    env.transferId in s.transfers && s.transfers[env.transferId].payloadHash != env.payloadHash
  }

  /** Its transfer holds other content, or its side record can be stored. */
  predicate CanBeSetAside(s: Tables, fp: FailPoints, env: Envelope) {
    && !fp.auditWrite
    && (|| OtherContent(s, env)
        || (!fp.persistTransfer
            && ("CONFLICT-" + env.transferId in s.transfers ==>
                  && s.transfers["CONFLICT-" + env.transferId].payloadHash == env.payloadHash
                  && s.transfers["CONFLICT-" + env.transferId].status.Quarantined?)))
  }

  /** What setting aside leaves: at most one new row, quarantined under an id of its own, and one audit event. */
  predicate SetAside(s: Tables, s': Tables, env: Envelope) {
    var id := "CONFLICT-" + env.transferId;
    && s'.idempotency == s.idempotency && s'.byKey == s.byKey && s'.receipts == s.receipts
    && (forall t :: t in s.transfers ==> t in s'.transfers && s'.transfers[t] == s.transfers[t])
    && (forall t :: t in s'.transfers && t !in s.transfers ==>
          && t == id && s'.transfers[t].status.Quarantined? && s'.transfers[t].payloadHash == env.payloadHash
          && s'.transfers[t].lastErrorCode == Some("IDEMPOTENCY_KEY_CONFLICT") && s'.transfers[t].receiptId.None?)
    && (id in s'.transfers || OtherContent(s, env))
    && |s'.audit| == |s.audit| + 1 && s'.audit[|s.audit|].entry.eventType == "TRANSFER_QUARANTINED"
  }

  /** How a contradiction ends: set aside with its nonce spent, or an error that leaves the tables. */
  predicate EndsAside(s: Tables, fp: FailPoints, nonce: string, env: Envelope, wallClock: int, s': Tables, out: Outcome) {
    && out.Responded? && out.reply.Denial?
    && (out.kind.QuarantinedKind? <==> CanBeSetAside(s, fp, env))
    && (out.kind.QuarantinedKind? ==>
          && SetAside(s, s', env) && out.reply.error == Some("IDEMPOTENCY_KEY_CONFLICT")
          && s'.nonces == WithNonce(s.nonces, nonce, env.transferId, wallClock))
    && (!out.kind.QuarantinedKind? ==> out.kind.ErrorKind? && D.SameTables(s, s'))
  }

  lemma OtherContentEnds(s: Tables, fp: FailPoints, nonce: string, env: Envelope, wallClock: int)
    requires OtherContent(s, env)
    ensures var (s', out) := Quarantine(s, fp, nonce, env, "IDEMPOTENCY_KEY_CONFLICT", wallClock);
            EndsAside(s, fp, nonce, env, wallClock, s', out)
  {
  }

  lemma SideRecordEnds(s: Tables, fp: FailPoints, nonce: string, env: Envelope, wallClock: int)
    requires !OtherContent(s, env)
    ensures var (s', out) := Quarantine(s, fp, nonce, env, "IDEMPOTENCY_KEY_CONFLICT", wallClock);
            EndsAside(s, fp, nonce, env, wallClock, s', out)
  {
  }

  /**
   Every contradiction: a request for a bound key with another transfer or other content is answered as a
   conflict exactly when it can be set aside, with its nonce spent, and as an error otherwise, which
   leaves the tables as they were. Never is it accepted, and the key's own decision stays.
   */
  lemma ConflictSays(s: Tables, step: D.Step)
    requires !step.disabled && LaterDelivery(s, step.request, step.now) && !IsRepeat(s, step.request.body.envelope)
    ensures var (s', out) := D.Apply(s, step);
            EndsAside(s, step.fp, step.request.nonce.value, step.request.body.envelope, step.wallClock, s', out)
  {
    var nonce, env := step.request.nonce.value, step.request.body.envelope;
    LaterDeliveryDecides(s, step);
    if OtherContent(s, env) { OtherContentEnds(s, step.fp, nonce, env, step.wallClock); }
    else { SideRecordEnds(s, step.fp, nonce, env, step.wallClock); }
  }
}
