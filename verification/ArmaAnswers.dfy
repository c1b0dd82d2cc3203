/**
 What ARMA makes of the answer to a send, told by the answer itself, and what that comes to with the
 gateway: where the processor may have been reached, the transfer is never sent again.
 */
module ArmaAnswers {
  import opened Wrappers
  import RV = ReceiptVerifier
  import P = LawShieldProcessor
  import G = LawShieldGateway
  import opened ArmaTransfers
  import opened ArmaSends

  /** A signed receipt that says of this very send that it was accepted. */
  predicate Confirms(w: RV.ReceiptWire, o: Outbound) {
    && w.headersPresent && w.schemaVersion == "arma-lawshield.v1" && w.bodyPresent
    && w.hashMatches && w.signatureMatches && w.receipt.Some?
    && var r := w.receipt.value;
       && r.receiptId == w.receiptId && r.status == "ACCEPTED" && r.accepted && r.acceptedAt.Some?
       && r.transferId == o.transferId && r.idempotencyKey == o.idempotencyKey
       && r.armaOrgId == o.armaOrgId && r.lawShieldOrgId == o.lawShieldOrgId
       && r.receivedPayloadHash == o.payloadHash && r.recordType == o.recordType && r.recordId == o.recordId
  }

  /** The processor was certainly not reached. */
  predicate NotReached(a: Answer) {
    match a
    case Failed(timedOut) => !timedOut
    case Receipt(_) => false
    case Refused(_, error, _) => error == Some("PROCESSOR_UNAVAILABLE")
  }

  /** The processor may have been reached, and what it did is not known. */
  predicate InDoubt(a: Answer, o: Outbound) {
    match a
    case Failed(timedOut) => timedOut
    case Receipt(wire) => !Confirms(wire, o)
    case Refused(_, error, _) => error == Some("PROCESSOR_TIMEOUT") || error == Some("PROCESSOR_RECEIPT_MISMATCH")
  }

  function DelayAfter(retryCount: nat): int {
    match retryCount
    case 0 => 1_000
    case 1 => 5_000
    case 2 => 30_000
    case 3 => 120_000
    case _ => 600_000
  }

  /** For what was built to be sent, the verifier asks for all of it. */
  lemma VerifiesIff(w: RV.ReceiptWire, o: Outbound)
    requires BuildError(o, None).None?
    ensures RV.VerifyReceipt(w, ExpectedOf(o)).Success? <==> Confirms(w, o)
    ensures Confirms(w, o) ==> RV.VerifyReceipt(w, ExpectedOf(o)) == Success(w.receipt.value)
  {
  }

  /** The record after a settled send, told by the answer. */
  predicate SettledAs(s: State, s': State, o: Outbound, a: Answer, at: int)
    requires o.transferId in s.transfers && o.transferId in s'.transfers
  {
    var r, r' := s.transfers[o.transferId], s'.transfers[o.transferId];
    && (r'.status.Accepted? <==> a.Receipt? && Confirms(a.wire, o))
    && (r'.status.Accepted? ==> r'.receiptId == Some(a.wire.receiptId))
    && (r'.status.ReadyToSend? <==> NotReached(a) && r.retryCount < 5)
    && (r'.status.ReadyToSend? ==>
          r'.retryCount == r.retryCount + 1 && r'.nextRetryAt == Some(at + DelayAfter(r.retryCount)))
    && (r'.status.ReconciliationRequired? <==> InDoubt(a, o))
    && (r'.status.ReconciliationRequired? ==> o.transferId in s'.reconciliations && Reopened(s, s', o))
    && (r'.status.Rejected? <==>
          || (NotReached(a) && r.retryCount >= 5)
          || (a.Refused? && !NotReached(a) && !InDoubt(a, o)))
  }

  /** An open reconciliation stands; any other is replaced by an open one about this send. */
  predicate Reopened(s: State, s': State, o: Outbound)
    requires o.transferId in s'.reconciliations
  {
    var now := s'.reconciliations[o.transferId];
    && now.resolution.Open?
    && (if o.transferId in s.reconciliations && s.reconciliations[o.transferId].resolution.Open?
        then now == s.reconciliations[o.transferId] else now.expectedPayloadHash == Some(o.payloadHash))
  }

  /** The answer's disposition, told by the answer. */
  lemma DisposedSays(a: Answer, o: Outbound, retryCount: nat)
    requires BuildError(o, None).None?
    ensures var d := Disposed(a, o, retryCount);
            && (d.Confirmed? <==> a.Receipt? && Confirms(a.wire, o))
            && (d.Confirmed? ==> d.receipt == a.wire.receipt.value)
            && (d.Retried? <==> NotReached(a) && retryCount < 5)
            && (d.Retried? ==> d.delayMs == DelayAfter(retryCount))
            && (d.Doubtful? <==> InDoubt(a, o))
            && (d.Terminal? <==>
                  (NotReached(a) && retryCount >= 5) || (a.Refused? && !NotReached(a) && !InDoubt(a, o)))
  {
    if a.Receipt? { VerifiesIff(a.wire, o); }
  }

  /** What each disposition leaves, the reconciliation and the next attempt included. */
  lemma SettledSays(s: State, o: Outbound, d: Disposition, at: int)
    requires o.transferId in s.transfers && s.transfers[o.transferId].status.Sent?
    ensures var s' := Settled(s, o.transferId, o, d, at);
            && o.transferId in s'.transfers
            && var r, r' := s.transfers[o.transferId], s'.transfers[o.transferId];
               && (r'.status.Accepted? <==> d.Confirmed?)
               && (d.Confirmed? ==> r'.receiptId == Some(d.receipt.receiptId))
               && (r'.status.ReadyToSend? <==> d.Retried?)
               && (d.Retried? ==> r'.retryCount == r.retryCount + 1 && r'.nextRetryAt == Some(at + d.delayMs))
               && (r'.status.ReconciliationRequired? <==> d.Doubtful?)
               && (d.Doubtful? ==> o.transferId in s'.reconciliations && Reopened(s, s', o))
               && (r'.status.Rejected? <==> d.Terminal?)
  {
  }

  lemma DisposedFits(s: State, o: Outbound, a: Answer, at: int)
    requires BuildError(o, None).None? && o.transferId in s.transfers && s.transfers[o.transferId].status.Sent?
    ensures var s' := Settled(s, o.transferId, o, Disposed(a, o, s.transfers[o.transferId].retryCount), at);
            o.transferId in s'.transfers && SettledAs(s, s', o, a, at)
  {
    var d := Disposed(a, o, s.transfers[o.transferId].retryCount);
    DisposedSays(a, o, s.transfers[o.transferId].retryCount);
    SettledSays(s, o, d, at);
  }

  /**
   The answer decides. After a settled send the transfer is sent again exactly when the processor was
   certainly not reached and the schedule lasts; it is in reconciliation exactly when that is in
   doubt, accepted exactly on a receipt for this send, and rejected otherwise.
   */
  lemma AnswerDecides(y: Side, m: Move, hash: Hash)
    requires Ok(y, hash) && m.SettleSend? && Possible(y, m)
    ensures m.outbound.transferId in Moved(y, m, hash).arma.transfers
    ensures SettledAs(y.arma, Moved(y, m, hash).arma, m.outbound, m.answer, m.at)
  {
    assert CallOk(y, m.outbound);
    assert SendOk(y.arma, hash, m.outbound);
    DisposedFits(y.arma, m.outbound, m.answer, m.at);
  }

  // ----- With the gateway -----

  /** A failure response of the gateway, as ARMA's fetch reads it. */
  function AnswerOf(r: G.Response): Answer
    requires r.Failed?
  {
    Refused(r.status, Some(r.error), r.retryable)
  }

  /** The gateway's call timed out, or was answered for another transfer or payload. */
  predicate Undecided(env: P.Envelope, up: G.Upstream) {
    match up
    case Unreachable(timedOut) => timedOut
    case Answered(httpOk, reply) =>
      && httpOk && reply.Some? && reply.value.Acceptance? && reply.value.receiptId != ""
      && ((reply.value.transferId != "" && reply.value.transferId != env.transferId)
          || (reply.value.payloadHash != "" && reply.value.payloadHash != env.payloadHash))
  }

  lemma UndecidedIsInDoubt(env: P.Envelope, up: G.Upstream, o: Outbound)
    requires Undecided(env, up)
    ensures G.Respond(env, up).Failed? && InDoubt(AnswerOf(G.Respond(env, up)), o)
  {
  }

  /** The processor refused, and the gateway passes this error on. */
  predicate Denied(up: G.Upstream, error: string) {
    && up.Answered? && up.reply.Some? && up.reply.value.Denial? && up.reply.value.error == Some(error) && error != ""
  }

  /**
   What the gateway's answer is for ARMA: a receipt exactly for an acceptance of this very transfer, in
   doubt exactly when the outcome is undecided or the processor says so, and not reached exactly when
   no connection was made or the processor says that.
   */
  lemma GatewayTells(env: P.Envelope, up: G.Upstream, o: Outbound)
    ensures var r := G.Respond(env, up);
            && (r.Signed? <==>
                  && up.Answered? && up.httpOk && up.reply.Some? && up.reply.value.Acceptance?
                  && up.reply.value.receiptId != "" && !Undecided(env, up))
            && (r.Failed? ==>
                  && (InDoubt(AnswerOf(r), o) <==>
                        || Undecided(env, up) || Denied(up, "PROCESSOR_TIMEOUT")
                        || Denied(up, "PROCESSOR_RECEIPT_MISMATCH"))
                  && (NotReached(AnswerOf(r)) <==> up == G.Unreachable(false) || Denied(up, "PROCESSOR_UNAVAILABLE")))
  {
  }

  lemma RefusedConnectionIsNotReached(env: P.Envelope)
    ensures G.Respond(env, G.Unreachable(false)).Failed?
    ensures NotReached(AnswerOf(G.Respond(env, G.Unreachable(false))))
  {
  }

  /**
   Once the gateway's call timed out, or was answered for another transfer or payload, ARMA opens a
   reconciliation, and in no later run is the transfer sent again.
   */
  lemma UndecidedIsNeverResent(y: Side, o: Outbound, env: P.Envelope, up: G.Upstream, at: int, later: seq<Move>,
                               hash: Hash)
    requires Ok(y, hash) && o in y.calls && Undecided(env, up)
    ensures G.Respond(env, up).Failed?
    ensures var y1 := Moved(y, SettleSend(o, AnswerOf(G.Respond(env, up)), at), hash);
            var y2 := Run(y1, later, hash);
            && o.transferId in y1.arma.transfers && y1.arma.transfers[o.transferId].status.ReconciliationRequired?
            && o.transferId in y2.arma.reconciliations
            && Count(y2.sends, o.transferId) == Count(y.sends, o.transferId)
  {
    UndecidedIsInDoubt(env, up, o);
    var m := SettleSend(o, AnswerOf(G.Respond(env, up)), at);
    assert CallOk(y, o);
    AnswerDecides(y, m, hash);
    MoveKeeps(y, m, hash);
    OthersSendNothing(y, m, hash);
    ClosedForGood(Moved(y, m, hash), later, hash, o.transferId);
  }

  /** A connection the gateway could not make is tried again, five times. */
  lemma RefusedConnectionIsRetried(y: Side, o: Outbound, env: P.Envelope, at: int, hash: Hash)
    requires Ok(y, hash) && o in y.calls
    ensures G.Respond(env, G.Unreachable(false)).Failed?
    ensures var m := SettleSend(o, AnswerOf(G.Respond(env, G.Unreachable(false))), at);
            && o.transferId in y.arma.transfers && o.transferId in Moved(y, m, hash).arma.transfers
            && Moved(y, m, hash).arma.transfers[o.transferId].status
               == if y.arma.transfers[o.transferId].retryCount < 5 then ReadyToSend else Rejected
  {
    RefusedConnectionIsNotReached(env);
    assert CallOk(y, o);
    AnswerDecides(y, SettleSend(o, AnswerOf(G.Respond(env, G.Unreachable(false))), at), hash);
  }
}
