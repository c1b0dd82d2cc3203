/**
 When the client tries again, told by what happened on the server: the other half of the soundness
 of its failure classes.
 */
module PartnerRetries {
  import opened Wrappers
  import S = PartnerServer
  import opened PartnerClient
  import opened PartnerExchange
  import opened PartnerStatuses

  // ----- Where the server stopped -----

  /** Authentication objects with one of its own codes, and the body reader with one of its statuses. */
  predicate Usual(c: S.Circumstances) {
    && (c.earlyAuth.Some? ==> AuthCode(c.earlyAuth.value)) && (c.lateAuth.Some? ==> AuthCode(c.lateAuth.value))
    && (c.unreadable.Some? ==> c.unreadable.value.status == 400 || c.unreadable.value.status == 413)
  }

  predicate AuthCode(code: string) {
    || code == "AUTH_MISSING" || code == "AUTH_MALFORMED" || code == "PARTNER_UNKNOWN" || code == "PARTNER_SUSPENDED"
    || code == "CREDENTIAL_UNKNOWN" || code == "CREDENTIAL_REVOKED" || code == "CREDENTIAL_EXPIRED"
    || code == "TIMESTAMP_OUT_OF_WINDOW" || code == "NONCE_INVALID" || code == "SIGNATURE_INVALID"
    || code == "SECRET_UNAVAILABLE"
  }

  /** Everything but the rate limit lets the request through. */
  predicate OnlyThrottled(t: S.Tables, r: S.Request, c: S.Circumstances) {
    c.throttled.Some? && Admitted(t, r, c.(throttled := None))
  }

  /** The create needs the downstream service. */
  predicate CallsDownstream(t: S.Tables, r: S.Request, c: S.Circumstances) {
    && Admitted(t, r, c) && r.route.Create? && r.route.body.Some? && S.Complete(r.route.body.value) && c.policy.None?
    && (r.clientId, r.route.body.value.idempotencyKey.value) !in t.core.idempotency
  }

  /** The change is one that has to be written. */
  predicate ChangesStatus(t: S.Tables, r: S.Request, c: S.Circumstances) {
    && Admitted(t, r, c) && r.route.Change? && r.route.activationId in t.core.activations && c.policy.None?
    && (match t.core.activations[r.route.activationId].status
        case Active => true
        case Deactivated => r.route.action.Revoke?
        case Revoked => false)
  }

  /** Writing begins, and comes to its end or is rolled back. */
  predicate Writes(t: S.Tables, r: S.Request, c: S.Circumstances) {
    (CallsDownstream(t, r, c) && c.downstreamOk) || ChangesStatus(t, r, c)
  }

  /**
   The server stopped, and said so, at the kill switch, the rate limit, the downstream service or a
   write it rolled back.
   */
  predicate StoppedCleanly(t: S.Tables, r: S.Request, c: S.Circumstances) {
    || c.disabled
    || (&& !c.fp.auditWrite
        && (|| OnlyThrottled(t, r, c)
            || (CallsDownstream(t, r, c) && !c.downstreamOk)
            || (Writes(t, r, c) && (c.fp.persistActivation || c.fp.persistReceipt || c.fp.eventWrite))))
  }

  predicate CleanReply(reply: S.Reply) {
    reply.Refused?
    && (|| reply.status == 429
        || (reply.status == 503 && (reply.error == "PARTNER_API_DISABLED" || reply.error == "DOWNSTREAM_UNAVAILABLE"))
        || (reply.status == 500 && reply.error == "PARTNER_PERSISTENCE_FAILED"))
  }

  /** A refusal no repeat will mend: the statuses for bad input, denial, absence, conflict and size, or 401. */
  predicate FinalReply(reply: S.Reply) {
    && reply.Refused?
    && (|| reply.status in {400, 403, 404, 409, 413}
        || (reply.status == 401 && AuthCode(reply.error)))
  }

  lemma ProcessedCreateSays(t: S.Tables, r: S.Request, b: S.Body, hash: string, c: S.Circumstances)
    ensures var p := S.ProcessCreate(t, r, b, hash, c).1;
            var unbound := S.Complete(b) && c.policy.None? && (r.clientId, b.idempotencyKey.value) !in t.core.idempotency;
            var broken := c.fp.persistActivation || c.fp.persistReceipt || c.fp.eventWrite;
            && (p.Answered? && !p.reply.Receipted? ==> CleanReply(p.reply) || FinalReply(p.reply))
            && (p.Answered? && CleanReply(p.reply) <==> unbound && !c.fp.auditWrite && (!c.downstreamOk || broken))
            && (p.Answered? ==> !p.reply.Shown?)
  {
  }

  lemma ProcessedChangeSays(t: S.Tables, r: S.Request, action: S.Action, id: string, c: S.Circumstances)
    ensures var p := S.ProcessChange(t, r, action, id, c).1;
            var changes := && id in t.core.activations && c.policy.None?
                           && (match t.core.activations[id].status
                               case Active => true
                               case Deactivated => action.Revoke?
                               case Revoked => false);
            var broken := c.fp.persistActivation || c.fp.persistReceipt || c.fp.eventWrite;
            && (p.Answered? && !p.reply.Receipted? ==> CleanReply(p.reply) || FinalReply(p.reply))
            && (p.Answered? && CleanReply(p.reply) <==> changes && !c.fp.auditWrite && broken)
            && (p.Answered? ==> !p.reply.Shown?)
  {
  }

  lemma TurnedAwaySays(t: S.Tables, r: S.Request, c: S.Circumstances, hash: S.BodyHash)
    requires !Admitted(t, r, c) && ExpectsReceipt(r.route) && Usual(c)
    ensures var reply := S.Handle(t, r, c, hash).1;
            && (reply.Some? ==> CleanReply(reply.value) || FinalReply(reply.value))
            && (reply.Some? && CleanReply(reply.value) <==> c.disabled || (OnlyThrottled(t, r, c) && !c.fp.auditWrite))
  {
  }

  /** The server's answer to a POST is a receipt, a clean stop or a final refusal; or none was sent. */
  lemma AnswersAreOneOf(t: S.Tables, r: S.Request, c: S.Circumstances, hash: S.BodyHash)
    requires ExpectsReceipt(r.route) && Usual(c)
    ensures var reply := S.Handle(t, r, c, hash).1;
            && (reply.Some? ==> reply.value.Receipted? || CleanReply(reply.value) || FinalReply(reply.value))
            && (reply.Some? && CleanReply(reply.value) <==> StoppedCleanly(t, r, c))
  {
    if !Admitted(t, r, c) {
      TurnedAwaySays(t, r, c, hash);
    } else {
      AdmittedIsRouted(t, r, c, hash);
      var t1 := t.(nonces := S.Pruned(t.nonces, c.now));
      match r.route {
        case Create(body) => if body.Some? { ProcessedCreateSays(t1, r, body.value, hash(body.value), c); }
        case Change(action, id) => ProcessedChangeSays(t1, r, action, id, c);
        case _ =>
      }
    }
  }

  lemma RepliesAreJudged(r: S.Request, reply: S.Reply)
    requires ExpectsReceipt(r.route)
    ensures var v := Judge(Seen(r, Some(reply), Delivered));
            && (CleanReply(reply) ==> Retries(v))
            && (FinalReply(reply) ==> v.Failed? && v.why.failureClass.Terminal?)
            && (reply.Receipted? && Verified(r, reply.receipt).verified ==> v.Okay?)
  {
  }

  /**
   What the client makes of a complete answer to a POST, told by what happened on the server. It
   tries again exactly when the server stopped at the kill switch, the rate limit, the downstream
   service or a write it rolled back; gives up exactly on every other refusal; succeeds exactly on a
   receipt; and is in doubt exactly when the server sent nothing.
   */
  lemma AnswersAreJudged(t: S.Tables, r: S.Request, c: S.Circumstances, hash: S.BodyHash)
    requires ExpectsReceipt(r.route) && Usual(c)
    ensures var reply := S.Handle(t, r, c, hash).1;
            var v := Judge(Seen(r, reply, Delivered));
            && (Retries(v) <==> StoppedCleanly(t, r, c))
            && (v.Okay? <==> reply.Some? && reply.value.Receipted?)
            && (v.Failed? && v.why.failureClass.Terminal? <==>
                  reply.Some? && reply.value.Refused? && !StoppedCleanly(t, r, c))
            && (v.Failed? && v.why.failureClass.Ambiguous? <==> reply.None?)
  {
    var reply := S.Handle(t, r, c, hash).1;
    AnswersAreOneOf(t, r, c, hash);
    OwnReceiptsVerify(t, r, c, hash);
    if reply.Some? { RepliesAreJudged(r, reply.value); }
  }

  /** Of an exchange that broke, the client tries again exactly when the error is one from before delivery. */
  lemma BrokenIsJudged(r: S.Request, e: TransportError)
    ensures var v := Judge(Broken(r, e));
            && v.Failed? && !v.why.failureClass.Terminal?
            && (Retries(v) <==>
                  && !e.aborted && e.code.Some?
                  && (|| e.code.value == "ECONNREFUSED" || e.code.value == "ENOTFOUND" || e.code.value == "EAI_AGAIN"
                      || e.code.value == "EHOSTUNREACH" || e.code.value == "ENETUNREACH"
                      || e.code.value == "UND_ERR_CONNECT_TIMEOUT"))
  {
  }
}
