/**
 Client and server together: a failure the client calls clean or terminal changed nothing on the
 server, so one call of the client can change the server through its last attempt only.
 */
module PartnerExchange {
  import opened Wrappers
  import S = PartnerServer
  import opened PartnerClient

  // ----- What comes back -----

  /**
   What the network does with one attempt. Errors of the pre-delivery kind mean that the request
   never left; a lost or late reply shows as a timeout or as any other error.
   */
  datatype Network =
    | Undelivered(code: string)
    | RequestLost(error: TransportError)
    | ReplyLost(error: TransportError)
    | Garbled
    | Delivered

  predicate Plausible(n: Network) {
    match n
    case Undelivered(code) => IsPreDelivery(code)
    case RequestLost(e) => ClassifyTransport(e).failureClass.Ambiguous?
    case ReplyLost(e) => ClassifyTransport(e).failureClass.Ambiguous?
    case _ => true
  }

  function ExpectsReceipt(route: S.Route): bool {
    route.Create? || route.Change?
  }

  function OperationOf(route: S.Route): S.Operation
    requires ExpectsReceipt(route)
  {
    if route.Create? then S.CreateOp else S.OperationOf(route.action)
  }

  /** The receipt check binds request id, client and operation. */
  function Verified(r: S.Request, receipt: S.SignedReceipt): Verification
    requires ExpectsReceipt(r.route)
  {
    if receipt.requestId == r.requestId && receipt.clientId == r.clientId && receipt.operation == OperationOf(r.route)
    then Verification(true, None) else Verification(false, Some("RECEIPT_FIELD_MISMATCH"))
  }

  function EvidenceFor(r: S.Request, reply: S.Reply): Evidence {
    match reply
    case Refused(status, error) =>
      Evidence(None, Some(status), Some(error), ExpectsReceipt(r.route), None, true, Some("v1"))
    case Receipted(receipt) =>
      Evidence(None, Some(200), None, ExpectsReceipt(r.route),
               if ExpectsReceipt(r.route) then Some(Verified(r, receipt)) else None, true, Some("v1"))
    case Shown(_) => Evidence(None, Some(200), None, ExpectsReceipt(r.route), None, true, Some("v1"))
  }

  function Broken(r: S.Request, e: TransportError): Attempt {
    Exchanged(Evidence(Some(e), None, None, ExpectsReceipt(r.route), None, false, None), false)
  }

  /** What the client meets when the server answered (or not) and the network did what it did. */
  function Seen(r: S.Request, reply: Option<S.Reply>, n: Network): Attempt {
    match n
    case Undelivered(code) => Broken(r, TransportError(false, Some(code)))
    case RequestLost(e) => Broken(r, e)
    case ReplyLost(e) => Broken(r, e)
    case Garbled =>
      Exchanged(Evidence(None, Some(200), None, ExpectsReceipt(r.route),
                         Some(Verification(false, Some("RECEIPT_INVALID_SIGNATURE"))), true, Some("v1")), false)
    case Delivered =>
      if reply.None? then Broken(r, TransportError(true, None)) else Exchanged(EvidenceFor(r, reply.value), true)
  }

  predicate Reaches(n: Network) {
    !n.Undelivered? && !n.RequestLost?
  }

  // ----- One attempt -----

  lemma CreateChangeIsReceipted(t: S.Tables, r: S.Request, b: S.Body, hash: string, c: S.Circumstances)
    ensures var (t', p) := S.ProcessCreate(t, r, b, hash, c);
            t'.core != t.core ==> p.Answered? && p.reply.Receipted?
  {
  }

  lemma ChangeIsReceipted(t: S.Tables, r: S.Request, action: S.Action, id: string, c: S.Circumstances)
    ensures var (t', p) := S.ProcessChange(t, r, action, id, c);
            t'.core != t.core ==> p.Answered? && p.reply.Receipted?
  {
  }

  /** Whatever fails on the server, it changes what operations are remembered by only behind a receipt. */
  lemma OnlyReceiptsChangeCore(t: S.Tables, r: S.Request, c: S.Circumstances, hash: S.BodyHash)
    ensures var (t', reply) := S.Handle(t, r, c, hash);
            t'.core != t.core ==> reply.Some? && reply.value.Receipted? && ExpectsReceipt(r.route)
  {
    var t1 := t.(nonces := S.Pruned(t.nonces, c.now));
    match r.route {
      case Create(body) =>
        if body.Some? { CreateChangeIsReceipted(t1, r, body.value, hash(body.value), c); }
      case Change(action, id) => ChangeIsReceipted(t1, r, action, id, c);
      case _ =>
    }
  }

  lemma CreateReceiptMatches(t: S.Tables, r: S.Request, b: S.Body, hash: string, c: S.Circumstances)
    ensures var (t', p) := S.ProcessCreate(t, r, b, hash, c);
            p.Answered? && p.reply.Receipted? ==>
              && p.reply.receipt.requestId == r.requestId && p.reply.receipt.clientId == r.clientId
              && p.reply.receipt.operation == S.CreateOp
  {
  }

  lemma ChangeReceiptMatches(t: S.Tables, r: S.Request, action: S.Action, id: string, c: S.Circumstances)
    ensures var (t', p) := S.ProcessChange(t, r, action, id, c);
            p.Answered? && p.reply.Receipted? ==>
              && p.reply.receipt.requestId == r.requestId && p.reply.receipt.clientId == r.clientId
              && p.reply.receipt.operation == S.OperationOf(action)
  {
  }

  /** The server's own receipts pass the client's check. */
  lemma OwnReceiptsVerify(t: S.Tables, r: S.Request, c: S.Circumstances, hash: S.BodyHash)
    ensures var (t', reply) := S.Handle(t, r, c, hash);
            reply.Some? && reply.value.Receipted? ==> ExpectsReceipt(r.route) && Verified(r, reply.value.receipt).verified
  {
    var t1 := t.(nonces := S.Pruned(t.nonces, c.now));
    match r.route {
      case Create(body) =>
        if body.Some? { CreateReceiptMatches(t1, r, body.value, hash(body.value), c); }
      case Change(action, id) => ChangeReceiptMatches(t1, r, action, id, c);
      case _ =>
    }
  }

  /** A receipt that arrives unharmed is a success; no reply, a lost or a garbled one is in doubt. */
  lemma ReceiptIsNoFailure(r: S.Request, reply: Option<S.Reply>, n: Network)
    requires ExpectsReceipt(r.route) && Plausible(n) && Reaches(n)
    requires reply.Some? && reply.value.Receipted? && Verified(r, reply.value.receipt).verified
    ensures var v := Judge(Seen(r, reply, n)); v.Okay? || v.why.failureClass.Ambiguous?
  {
  }

  /**
   The failure classes are sound for the server: an attempt the client judges CLEAN_RETRYABLE or
   TERMINAL left the activations, idempotency, receipts and events tables as they were.
   */
  lemma FailureClassesAreSound(t: S.Tables, r: S.Request, c: S.Circumstances, hash: S.BodyHash, n: Network)
    requires Plausible(n)
    ensures var (t', reply) := S.Handle(t, r, c, hash);
            var v := Judge(Seen(r, reply, n));
            Reaches(n) && v.Failed? && !v.why.failureClass.Ambiguous? ==> t'.core == t.core
  {
    var (t', reply) := S.Handle(t, r, c, hash);
    OnlyReceiptsChangeCore(t, r, c, hash);
    OwnReceiptsVerify(t, r, c, hash);
    if t'.core != t.core && Reaches(n) { ReceiptIsNoFailure(r, reply, n); }
  }

  // ----- One call -----

  /** Everything that happens to one attempt of a call. */
  datatype Plan = Plan(switchedOff: bool, noCredential: bool, requestId: string, nonce: string,
                       circumstances: S.Circumstances, network: Network)

  /** One attempt at a call: the server's tables afterwards, and what the client meets. */
  function Attempted(t: S.Tables, r: S.Request, p: Plan, hash: S.BodyHash): (S.Tables, Attempt) {
    var sent := r.(requestId := p.requestId, nonce := p.nonce);
    if p.switchedOff then (t, SwitchedOff)
    else if p.noCredential then (t, NoCredential)
    else if !Reaches(p.network) then (t, Seen(sent, None, p.network))
    else
      var (t', reply) := S.Handle(t, sent, p.circumstances, hash);
      (t', Seen(sent, reply, p.network))
  }

  /** The server's tables before attempt k, had all the attempts before it been made. */
  function Before(t: S.Tables, r: S.Request, plans: nat -> Plan, hash: S.BodyHash, k: nat): S.Tables
    requires k >= 1
  {
    if k == 1 then t else Attempted(Before(t, r, plans, hash, k - 1), r, plans(k - 1), hash).0
  }

  function Met(t: S.Tables, r: S.Request, plans: nat -> Plan, hash: S.BodyHash, k: nat): Attempt
    requires k >= 1
  {
    Attempted(Before(t, r, plans, hash, k), r, plans(k), hash).1
  }

  function AttemptsOf(t: S.Tables, r: S.Request, plans: nat -> Plan, hash: S.BodyHash): Attempts {
    (k: nat) => if k == 0 then SwitchedOff else Met(t, r, plans, hash, k)
  }

  predicate CleanOrTerminal(a: Attempt) {
    var v := Judge(a);
    v.Failed? && !v.why.failureClass.Ambiguous?
  }

  lemma CleanAttemptLeavesCore(t: S.Tables, r: S.Request, p: Plan, hash: S.BodyHash)
    requires Plausible(p.network)
    ensures var (t', a) := Attempted(t, r, p, hash);
            CleanOrTerminal(a) ==> t'.core == t.core
  {
    FailureClassesAreSound(t, r.(requestId := p.requestId, nonce := p.nonce), p.circumstances, hash, p.network);
  }

  /** What the server remembers operations by before attempt k. */
  function CoreBefore(t: S.Tables, r: S.Request, plans: nat -> Plan, hash: S.BodyHash, k: nat): S.Core {
    if k == 0 then t.core else Before(t, r, plans, hash, k).core
  }

  lemma AttemptLeavesCore(t: S.Tables, r: S.Request, plans: nat -> Plan, hash: S.BodyHash, k: nat)
    requires k >= 1 && Plausible(plans(k).network) && CleanOrTerminal(Met(t, r, plans, hash, k))
    ensures CoreBefore(t, r, plans, hash, k + 1) == CoreBefore(t, r, plans, hash, k)
  {
    CleanAttemptLeavesCore(Before(t, r, plans, hash, k), r, plans(k), hash);
  }

  lemma RetriedAttemptLeavesCore(t: S.Tables, r: S.Request, plans: nat -> Plan, hash: S.BodyHash, k: nat)
    requires k >= 1 && Plausible(plans(k).network) && Retries(Judge(AttemptsOf(t, r, plans, hash)(k)))
    ensures CoreBefore(t, r, plans, hash, k + 1) == CoreBefore(t, r, plans, hash, k)
  {
    assert AttemptsOf(t, r, plans, hash)(k) == Met(t, r, plans, hash, k);
    AttemptLeavesCore(t, r, plans, hash, k);
  }

  lemma {:induction false} CoreStays(t: S.Tables, r: S.Request, plans: nat -> Plan, hash: S.BodyHash, max: nat, k: nat)
    requires max >= 1 && forall j :: Plausible(plans(j).network)
    requires 1 <= k <= LastAttempt(AttemptsOf(t, r, plans, hash), max, 1)
    ensures CoreBefore(t, r, plans, hash, k) == t.core
  {
    if k > 1 {
      CoreStays(t, r, plans, hash, max, k - 1);
      RetriedAttemptLeavesCore(t, r, plans, hash, k - 1);
    }
  }

  /**
   One call of the client changes the server through its last attempt at most: up to there its
   retries have left everything an operation is remembered by as it was.
   */
  lemma OnlyTheLastAttemptCounts(t: S.Tables, r: S.Request, plans: nat -> Plan, hash: S.BodyHash, max: nat)
    requires max >= 1 && forall j :: Plausible(plans(j).network)
    ensures CoreBefore(t, r, plans, hash, LastAttempt(AttemptsOf(t, r, plans, hash), max, 1)) == t.core
  {
    CoreStays(t, r, plans, hash, max, LastAttempt(AttemptsOf(t, r, plans, hash), max, 1));
  }

  /** A call that ends in a clean or terminal failure has changed nothing at all. */
  lemma FailedCallChangesNothing(t: S.Tables, r: S.Request, plans: nat -> Plan, hash: S.BodyHash, max: nat)
    requires max >= 1 && forall j :: Plausible(plans(j).network)
    ensures var n := LastAttempt(AttemptsOf(t, r, plans, hash), max, 1);
            CleanOrTerminal(Met(t, r, plans, hash, n)) ==> CoreBefore(t, r, plans, hash, n + 1) == t.core
  {
    var n := LastAttempt(AttemptsOf(t, r, plans, hash), max, 1);
    OnlyTheLastAttemptCounts(t, r, plans, hash, max);
    if CleanOrTerminal(Met(t, r, plans, hash, n)) { AttemptLeavesCore(t, r, plans, hash, n); }
  }
}
