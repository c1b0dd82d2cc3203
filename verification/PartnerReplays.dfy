/** That the partner server answers a signed request once: its nonce is spent by the answer. */
module PartnerReplays {
  import opened Wrappers
  import S = PartnerServer
  import PE = PartnerExchange
  import opened PartnerStatuses

  /** The client's nonce is remembered, and will be at this time. */
  predicate SpentUntil(t: S.Tables, client: string, nonce: string, until: int) {
    (client, nonce) in t.nonces && until <= t.nonces[(client, nonce)].firstSeenAt + 600_000
  }

  /** A refusal after which the client may use its nonce again: bad input, or a write that was rolled back. */
  predicate Spares(reply: S.Reply) {
    reply.Refused? && (reply.status == 400 || reply.status == 500)
  }

  lemma CreateSpends(t: S.Tables, r: S.Request, b: S.Body, hash: string, c: S.Circumstances)
    ensures var (t', p) := S.ProcessCreate(t, r, b, hash, c);
            t'.nonces == t.nonces && (p.Answered? ==> (p.registerNonce <==> !Spares(p.reply)))
  {
  }

  lemma ChangeSpends(t: S.Tables, r: S.Request, action: S.Action, id: string, c: S.Circumstances)
    ensures var (t', p) := S.ProcessChange(t, r, action, id, c);
            t'.nonces == t.nonces && (p.Answered? ==> (p.registerNonce <==> !Spares(p.reply)))
  {
  }

  /** Pruning drops what is older than the window, and what the request itself left then. */
  lemma AdmittedIsNew(t: S.Tables, r: S.Request, c: S.Circumstances)
    requires Admitted(t, r, c)
    ensures (r.clientId, r.nonce) !in S.Pruned(t.nonces, c.now)
  {
  }

  /**
   Which requests spend their nonce: exactly the POSTs that are let in and answered, but for bad input and
   writes rolled back.
   */
  lemma SpendsIff(t: S.Tables, r: S.Request, c: S.Circumstances, hash: S.BodyHash)
    requires Admitted(t, r, c) && !r.route.NoRoute?
    ensures var (t', reply) := S.Handle(t, r, c, hash);
            && ((r.clientId, r.nonce) in t'.nonces <==>
                  PE.ExpectsReceipt(r.route) && reply.Some? && !Spares(reply.value))
            && ((r.clientId, r.nonce) in t'.nonces ==> t'.nonces[(r.clientId, r.nonce)].firstSeenAt == c.now)
  {
    AdmittedIsNew(t, r, c);
    AdmittedIsRouted(t, r, c, hash);
    var t1 := t.(nonces := S.Pruned(t.nonces, c.now));
    match r.route {
      case Create(body) => if body.Some? { CreateSpends(t1, r, body.value, hash(body.value), c); }
      case Change(action, id) => ChangeSpends(t1, r, action, id, c);
      case _ =>
    }
  }

  /** A spent nonce is no longer let in. */
  lemma SpentIsRefused(t: S.Tables, r: S.Request, c: S.Circumstances, hash: S.BodyHash)
    requires SpentUntil(t, r.clientId, r.nonce, c.now)
    ensures var (t', reply) := S.Handle(t, r, c, hash);
            t'.core == t.core && (reply.Some? ==> reply.value.Refused?)
  {
    OthersChangeNothing(t, r, c, hash);
  }

  /** What a request does to the nonces remembered: nothing, or prunes them, and then perhaps adds its own. */
  ghost predicate NoncesMove(t: S.Tables, t': S.Tables, client: string, nonce: string, now: int) {
    || t'.nonces == t.nonces
    || t'.nonces == S.Pruned(t.nonces, now)
    || (exists requestId :: (client, nonce) !in S.Pruned(t.nonces, now)
                            && t'.nonces == S.Pruned(t.nonces, now)[(client, nonce) := S.NonceRecord(now, requestId)])
  }

  lemma HandleMovesNonces(t: S.Tables, r: S.Request, c: S.Circumstances, hash: S.BodyHash)
    ensures NoncesMove(t, S.Handle(t, r, c, hash).0, r.clientId, r.nonce, c.now)
  {
    if Admitted(t, r, c) && !r.route.NoRoute? {
      AdmittedIsRouted(t, r, c, hash);
      var t1 := t.(nonces := S.Pruned(t.nonces, c.now));
      match r.route {
        case Create(body) => if body.Some? { CreateSpends(t1, r, body.value, hash(body.value), c); }
        case Change(action, id) => ChangeSpends(t1, r, action, id, c);
        case _ =>
      }
    }
  }

  lemma SpentStays(t: S.Tables, v: Visit, hash: S.BodyHash, client: string, nonce: string, until: int)
    requires SpentUntil(t, client, nonce, until) && v.circumstances.now <= until
    ensures SpentUntil(Handled(t, v, hash).0, client, nonce, until)
  {
    HandleMovesNonces(t, v.request, v.circumstances, hash);
  }

  lemma {:induction false} SpentStaysOver(t: S.Tables, visits: seq<Visit>, hash: S.BodyHash, client: string,
                                          nonce: string, until: int)
    requires SpentUntil(t, client, nonce, until)
    requires forall i :: 0 <= i < |visits| ==> visits[i].circumstances.now <= until
    ensures SpentUntil(After(t, visits, hash), client, nonce, until)
    decreases |visits|
  {
    if visits != [] {
      SpentStays(t, visits[0], hash, client, nonce, until);
      SpentStaysOver(Handled(t, visits[0], hash).0, visits[1..], hash, client, nonce, until);
    }
  }

  /**
   A request that was answered with a receipt is answered with none for the next ten minutes, nor is any
   other that carries its nonce, and changes none of the four tables, whatever was handled in between.
   */
  lemma ReceiptsAreGivenOnce(t: S.Tables, first: Visit, between: seq<Visit>, again: Visit, hash: S.BodyHash)
    requires var reply := Handled(t, first, hash).1; reply.Some? && reply.value.Receipted?
    requires again.request.clientId == first.request.clientId && again.request.nonce == first.request.nonce
    requires first.circumstances.now <= again.circumstances.now <= first.circumstances.now + 600_000
    requires forall i :: 0 <= i < |between| ==> between[i].circumstances.now <= again.circumstances.now
    ensures var t1 := After(Handled(t, first, hash).0, between, hash);
            var (t2, reply) := Handled(t1, again, hash);
            t2.core == t1.core && (reply.Some? ==> reply.value.Refused?)
  {
    var r, c := first.request, first.circumstances;
    if !Admitted(t, r, c) || r.route.NoRoute? { OthersChangeNothing(t, r, c, hash); }
    SpendsIff(t, r, c, hash);
    SpentStaysOver(Handled(t, first, hash).0, between, hash, r.clientId, r.nonce, again.circumstances.now);
    SpentIsRefused(After(Handled(t, first, hash).0, between, hash), again.request, again.circumstances, hash);
  }

  // ----- The audit -----

  /** One event was added, numbered next, about this request. */
  predicate Notes(t: S.Tables, t': S.Tables, r: S.Request, operation: string, code: string) {
    t'.audit == t.audit + [S.AuditEvent(|t.audit| + 1, S.AuditEntry(r.clientId, r.requestId, operation, code))]
  }

  /** What is noted with a receipt: a new activation, a repeat, or a changed status; a change that was none is not. */
  predicate NotesReceipt(t: S.Tables, t': S.Tables, r: S.Request, receipt: S.SignedReceipt) {
    if receipt.operation.CreateOp? then
      Notes(t, t', r, "activation.create",
            if receipt.duplicate then "DUPLICATE_DELIVERY_COLLAPSED" else "ACTIVATION_CREATED")
    else if t'.core == t.core then t'.audit == t.audit
    else
      Notes(t, t', r, if receipt.operation.RevokeOp? then "activation.revoke" else "activation.deactivate",
            "ACTIVATION_CHANGED")
  }

  lemma CreateIsNoted(t: S.Tables, r: S.Request, b: S.Body, hash: string, c: S.Circumstances)
    ensures var (t', p) := S.ProcessCreate(t, r, b, hash, c);
            p.Answered? && p.reply.Receipted? ==> NotesReceipt(t, t', r, p.reply.receipt)
  {
  }

  lemma ChangeIsNoted(t: S.Tables, r: S.Request, action: S.Action, id: string, c: S.Circumstances)
    ensures var (t', p) := S.ProcessChange(t, r, action, id, c);
            p.Answered? && p.reply.Receipted? ==> NotesReceipt(t, t', r, p.reply.receipt)
  {
    var (t', p) := S.ProcessChange(t, r, action, id, c);
    if p.Answered? && p.reply.Receipted? && t'.audit != t.audit { assert |t'.core.events| == |t.core.events| + 1; }
  }

  /** Every receipt that changed something, and every repeat of a create, has its event in the audit. */
  lemma ReceiptsAreNoted(t: S.Tables, r: S.Request, c: S.Circumstances, hash: S.BodyHash)
    ensures var (t', reply) := S.Handle(t, r, c, hash);
            reply.Some? && reply.value.Receipted? ==> NotesReceipt(t, t', r, reply.value.receipt)
  {
    if !Admitted(t, r, c) || r.route.NoRoute? {
      OthersChangeNothing(t, r, c, hash);
    } else {
      AdmittedIsRouted(t, r, c, hash);
      var t1 := t.(nonces := S.Pruned(t.nonces, c.now));
      match r.route {
        case Create(body) => if body.Some? { CreateIsNoted(t1, r, body.value, hash(body.value), c); }
        case Change(action, id) => ChangeIsNoted(t1, r, action, id, c);
        case _ =>
      }
    }
  }
}
