/**
 Whatever the processor stores was sent, whatever was sent is on the wire, and ARMA's records say
 when a transfer was sent last.
 */
module LawShieldTraces {
  import opened Wrappers
  import A = ArmaTransfers
  import AS = ArmaSends
  import Redaction
  import S = LawShieldStore
  import P = LawShieldProcessor
  import D = LawShieldDecisions
  import opened LawShieldProtocol

  // ----- Whatever is stored was sent -----

  predicate Named(sends: seq<A.Outbound>, id: string) {
    exists o :: o in sends && o.transferId == id
  }

  predicate SentAt(sends: seq<A.Outbound>, id: string, at: int) {
    exists o :: o in sends && o.transferId == id && o.sentAt == at
  }

  /** A record has a payload hash, and the time of one of its sends, exactly from its first send on. */
  predicate RecordMarked(sends: seq<A.Outbound>, r: A.Record, id: string) {
    && (r.payloadHash.Some? <==> Named(sends, id)) && (r.sentAt.Some? <==> r.payloadHash.Some?)
    && (r.sentAt.Some? ==> SentAt(sends, id, r.sentAt.value))
  }

  ghost predicate Marked(y: AS.Side) {
    forall id :: id in y.arma.transfers ==> RecordMarked(y.sends, y.arma.transfers[id], id)
  }

  ghost predicate StoredWasSent(sends: seq<A.Outbound>, s: S.Tables) {
    forall id :: id in s.transfers ==> Named(sends, id)
  }

  predicate OnTheWire(requests: set<Wire>, o: A.Outbound) {
    exists w :: w in requests && w.outbound == o
  }

  predicate SpentFor(requests: set<Wire>, s: S.Tables, nonce: string) {
    exists w :: w in requests && w.nonce == nonce && w.outbound.transferId in s.transfers
  }

  /** The gateway remembers only nonces of requests it passed on. */
  ghost predicate GuardSawForwarded(y: System) {
    forall n :: n in y.gatewaySeen ==> exists w :: w in y.forwarded && w.nonce == n
  }

  ghost predicate Traced(y: System) {
    && Marked(y.side) && GuardSawForwarded(y)
    && (forall nonce :: nonce in y.tables.nonces ==> SpentFor(y.requests, y.tables, nonce))
    && StoredWasSent(y.side.sends, y.tables)
    && (forall o :: o in y.side.sends ==> OnTheWire(y.requests, o))
  }

  /** The same records, each with the payload hash and the time of sending it had. */
  ghost predicate KeepsHashes(s: A.State, s': A.State) {
    && s'.transfers.Keys == s.transfers.Keys
    && (forall id :: id in s.transfers ==>
          && s'.transfers[id].payloadHash == s.transfers[id].payloadHash
          && s'.transfers[id].sentAt == s.transfers[id].sentAt)
  }

  lemma PermitKeepsHashes(s: A.State, d: A.Directory, disabled: bool, actor: string, id: string, reason: string,
                          reasonLength: nat, at: int)
    ensures KeepsHashes(s, A.Authorize(s, d, disabled, actor, id, reason, reasonLength, at))
  {
  }

  lemma ReadyKeepsHashes(s: A.State, d: A.Directory, disabled: bool, id: string, destination: Option<string>,
                         caseId: Option<string>, at: int)
    ensures KeepsHashes(s, A.Ready(s, d, disabled, id, destination, caseId, at))
  {
  }

  lemma RejectKeepsHashes(s: A.State, d: A.Directory, actor: string, id: string, reason: string, at: int)
    ensures KeepsHashes(s, A.Reject(s, d, actor, id, reason, at))
  {
  }

  lemma SettledKeepsHashes(s: A.State, id: string, o: A.Outbound, disposition: A.Disposition, at: int)
    requires id in s.transfers
    ensures KeepsHashes(s, A.Settled(s, id, o, disposition, at))
  {
  }

  /** Only a draft adds a record and only a send gives one its payload hash. */
  lemma OthersKeepHashes(y: AS.Side, m: AS.Move, hash: AS.Hash)
    requires !m.Draft? && !m.StartSend?
    ensures var y' := AS.Moved(y, m, hash); KeepsHashes(y.arma, y'.arma) && y'.sends == y.sends
  {
    if AS.Possible(y, m) {
      match m {
        case Permit(disabled, actor, t, reason, length, at) =>
          PermitKeepsHashes(y.arma, y.directory, disabled, actor, t, reason, length, at);
        case MakeReady(disabled, t, destination, caseId, at) =>
          ReadyKeepsHashes(y.arma, y.directory, disabled, t, destination, caseId, at);
        case Decline(actor, t, reason, at) => RejectKeepsHashes(y.arma, y.directory, actor, t, reason, at);
        case SettleSend(o, answer, at) =>
          SettledKeepsHashes(y.arma, o.transferId, o,
                             A.Disposed(answer, o, y.arma.transfers[o.transferId].retryCount), at);
        case CloseReconciliation(actor, t, noteLength, resolution) =>
          AS.ResolveKeepsRecords(y.arma, y.directory, actor, t, noteLength, resolution);
        case _ =>
      }
    }
  }

  /** A new record has no payload hash and is named by no send. */
  lemma DraftMarks(y: AS.Side, m: AS.Move, hash: AS.Hash)
    requires AS.Ok(y, hash) && Marked(y) && m.Draft?
    ensures Marked(AS.Moved(y, m, hash)) && AS.Moved(y, m, hash).sends == y.sends
  {
    assert forall o :: o in y.sends ==> AS.SendOk(y.arma, hash, o);
  }

  /** What a send does: nothing, or one more send of its own record, which is marked by it. */
  predicate SendsOwn(y: AS.Side, y': AS.Side, id: string) {
    && id in y.arma.transfers && id in y'.arma.transfers && y.arma.transfers[id].status.ReadyToSend?
    && y'.arma.transfers == y.arma.transfers[id := y'.arma.transfers[id]]
    && |y'.sends| == |y.sends| + 1 && y'.sends[..|y.sends|] == y.sends && y'.sends[|y.sends|].transferId == id
    && y'.arma.transfers[id].payloadHash.Some? && y'.arma.transfers[id].sentAt == Some(y'.sends[|y.sends|].sentAt)
  }

  lemma SendIsOwn(y: AS.Side, m: AS.Move, hash: AS.Hash)
    requires AS.Ok(y, hash) && m.StartSend?
    ensures var y' := AS.Moved(y, m, hash); y' == y || (SendsOwn(y, y', m.id) && y'.sends[|y.sends|].sentAt == m.at)
  {
    if A.SendError(y.arma, hash, m.disabled, m.id, m.at, m.screening).None? {
      assert AS.RecordOk(y.arma, y.sends, m.id);
    }
  }

  lemma SendMarks(y: AS.Side, y': AS.Side, id: string)
    requires Marked(y) && SendsOwn(y, y', id)
    ensures Marked(y') && forall t :: Named(y.sends, t) ==> Named(y'.sends, t)
  {
    forall t ensures Named(y'.sends, t) <==> Named(y.sends, t) || t == id { NamedOneMore(y.sends, y'.sends, t); }
    forall t | t in y'.arma.transfers
      ensures RecordMarked(y'.sends, y'.arma.transfers[t], t)
    {
      if t == id {
        assert y'.sends[|y.sends|] in y'.sends;
      } else {
        assert RecordMarked(y.sends, y.arma.transfers[t], t);
        SentStays(y.sends, y'.sends, t);
      }
    }
  }

  lemma SentStays(sends: seq<A.Outbound>, sends': seq<A.Outbound>, id: string)
    requires |sends'| == |sends| + 1 && sends'[..|sends|] == sends
    ensures forall at :: SentAt(sends, id, at) ==> SentAt(sends', id, at)
  {
    assert forall o :: o in sends ==> o in sends';
  }

  lemma NamedOneMore(sends: seq<A.Outbound>, sends': seq<A.Outbound>, id: string)
    requires |sends'| == |sends| + 1 && sends'[..|sends|] == sends
    ensures Named(sends', id) <==> Named(sends, id) || sends'[|sends|].transferId == id
  {
    assert sends' == sends + [sends'[|sends|]];
  }

  /** Every move of ARMA's keeps the marks, and forgets no send. */
  lemma MoveMarks(y: AS.Side, m: AS.Move, hash: AS.Hash)
    requires AS.Ok(y, hash) && Marked(y)
    ensures Marked(AS.Moved(y, m, hash))
    ensures var y' := AS.Moved(y, m, hash);
            || y'.sends == y.sends
            || (m.StartSend? && SendsOwn(y, y', m.id) && y'.sends[|y.sends|].sentAt == m.at)
  {
    if m.Draft? { DraftMarks(y, m, hash); }
    else if !m.StartSend? { OthersKeepHashes(y, m, hash); }
    else {
      SendIsOwn(y, m, hash);
      if AS.Moved(y, m, hash) != y { SendMarks(y, AS.Moved(y, m, hash), m.id); }
    }
  }

  lemma MoveTraces(y: System, e: Event, hash: AS.Hash)
    requires Ok(y, hash) && Traced(y) && e.Arma? && Enabled(y, e)
    ensures Traced(Next(y, e, hash))
  {
    MoveMarks(y.side, e.move, hash);
    SideTraces(y, Next(y, e, hash), e.nonce, e.signedAt);
  }

  lemma SideTraces(y: System, y': System, nonce: string, signedAt: int)
    requires Traced(y) && Marked(y'.side) && y'.tables == y.tables
    requires y'.gatewaySeen == y.gatewaySeen && y'.forwarded == y.forwarded
    requires y'.side.sends == y.side.sends || exists id :: SendsOwn(y.side, y'.side, id)
    requires y'.requests == y.requests + NewRequests(y.side.sends, y'.side.sends, nonce, signedAt)
    ensures Traced(y')
  {
    assert forall o :: o in y.side.sends ==> o in y'.side.sends;
    forall o | o in y'.side.sends
      ensures OnTheWire(y'.requests, o)
    {
      if o in y.side.sends {
        var w :| w in y.requests && w.outbound == o;
        assert w in y'.requests;
      } else {
        assert Wire(o, nonce, signedAt) in y'.requests;
      }
    }
  }

  /** An own request spends its nonce only when its transfer is stored. */
  lemma OwnNonceIsSpent(s: S.Tables, fp: S.FailPoints, nonce: string, env: P.Envelope, verdict: P.Verdict,
                        now: int, wallClock: int)
    requires D.FourTables(s)
    requires env.idempotencyKey in s.idempotency ==>
               && s.idempotency[env.idempotencyKey].transferId == env.transferId
               && s.idempotency[env.idempotencyKey].payloadHash == env.payloadHash
    ensures var s' := P.Decide(s, fp, nonce, env, verdict, now, wallClock).0;
            forall n :: n in s'.nonces ==> n in s.nonces || (n == nonce && env.transferId in s'.transfers)
  {
    if env.idempotencyKey in s.idempotency {
      assert D.BindingHolds(s, env.idempotencyKey) && D.TransferHolds(s, env.transferId);
      OwnRepeat(s, fp, nonce, env, verdict, now, wallClock);
    } else if nonce in s.nonces {
      NonceReplayed(s, fp, nonce, env, verdict, now, wallClock);
    } else {
      NewNonceIsSpent(s, fp, nonce, env, verdict, now, wallClock);
    }
  }

  lemma AcceptSpends(s: S.Tables, fp: S.FailPoints, nonce: string, env: P.Envelope, fields: seq<string>, now: int)
    requires nonce !in s.nonces
    ensures var s' := P.Accept(s, fp, nonce, env, fields, now).0;
            forall n :: n in s'.nonces ==> n in s.nonces || (n == nonce && env.transferId in s'.transfers)
  {
  }

  lemma RefuseSpends(s: S.Tables, fp: S.FailPoints, nonce: string, env: P.Envelope, refusal: Redaction.Refusal,
                     now: int)
    requires nonce !in s.nonces
    ensures var s' := P.Refuse(s, fp, nonce, env, refusal, now).0;
            forall n :: n in s'.nonces ==> n in s.nonces || (n == nonce && env.transferId in s'.transfers)
  {
  }

  lemma NewNonceIsSpent(s: S.Tables, fp: S.FailPoints, nonce: string, env: P.Envelope, verdict: P.Verdict,
                        now: int, wallClock: int)
    requires nonce !in s.nonces && env.idempotencyKey !in s.idempotency
    ensures var s' := P.Decide(s, fp, nonce, env, verdict, now, wallClock).0;
            forall n :: n in s'.nonces ==> n in s.nonces || (n == nonce && env.transferId in s'.transfers)
  {
    match verdict {
      case Success(fields) => AcceptSpends(s, fp, nonce, env, fields, now);
      case Failure(refusal) => RefuseSpends(s, fp, nonce, env, refusal, now);
    }
  }

  lemma OwnStepSpends(s: S.Tables, step: D.Step, env: P.Envelope)
    requires D.FourTables(s)
    requires step.request.body.Valid? ==> step.request.body.envelope == env
    requires env.idempotencyKey in s.idempotency ==>
               && s.idempotency[env.idempotencyKey].transferId == env.transferId
               && s.idempotency[env.idempotencyKey].payloadHash == env.payloadHash
    ensures var s' := D.Apply(s, step).0;
            forall n :: n in s'.nonces ==>
              n in s.nonces || (step.request.nonce == Some(n) && env.transferId in s'.transfers)
  {
    if !step.disabled && P.Screen(step.request, step.now).Proceed? {
      D.ScreenPassesOn(s, step.fp, step.request, step.verdict, step.now, step.wallClock);
      OwnNonceIsSpent(s, step.fp, step.request.nonce.value, env, step.verdict, step.now, step.wallClock);
    }
  }

  lemma DecideTraces(y: System, e: Event, hash: AS.Hash)
    requires Ok(y, hash) && Traced(y) && e.Decide? && Enabled(y, e)
    ensures Traced(Next(y, e, hash))
  {
    var env := EnvelopeOf(e.wire.outbound);
    ForwardedIsOwn(y, e.wire, hash);
    OwnRequestFits(y, env, hash);
    var effect := OwnStepEffect(y.tables, StepOf(e), env);
    var s' := D.Apply(y.tables, StepOf(e)).0;
    D.EffectKeeps(y.tables, s', effect);
    OwnStepSpends(y.tables, StepOf(e), env);
    forall n | n in s'.nonces
      ensures SpentFor(y.requests, s', n)
    {
      if n in y.tables.nonces { SpentStays(y.requests, y.tables, s', n); } else { assert e.wire.nonce == n; }
    }
    assert e.wire.outbound in y.side.sends;
    forall id | id in s'.transfers
      ensures Named(y.side.sends, id)
    {
      if id !in y.tables.transfers { assert effect.NewDecision? && id == env.transferId; }
    }
  }

  lemma SpentStays(requests: set<Wire>, s: S.Tables, s': S.Tables, nonce: string)
    requires SpentFor(requests, s, nonce) && D.Extends(s, s')
    ensures SpentFor(requests, s', nonce)
  {
  }

  lemma NextTraces(y: System, e: Event, hash: AS.Hash)
    requires Ok(y, hash) && Traced(y)
    ensures Traced(Next(y, e, hash))
  {
    if Enabled(y, e) {
      match e {
        case Arma(_, _, _) => MoveTraces(y, e, hash);
        case Decide(_, _, _, _, _, _, _, _) => DecideTraces(y, e, hash);
        case _ => GatewayTraces(y, e, hash);
      }
    }
  }

  /** The gateway stores no transfer, takes no request off the wire and remembers what it passed on. */
  lemma GatewayTraces(y: System, e: Event, hash: AS.Hash)
    requires Traced(y) && (e.Forward? || e.SignReceipt?)
    ensures Traced(Next(y, e, hash))
  {
    var y' := Next(y, e, hash);
    assert y'.side == y.side && y'.tables == y.tables && y'.requests == y.requests;
    forall n | n in y'.gatewaySeen
      ensures exists w :: w in y'.forwarded && w.nonce == n
    {
      if n in y.gatewaySeen {
        var w :| w in y.forwarded && w.nonce == n;
        assert w in y'.forwarded;
      } else {
        assert e.wire in y'.forwarded && e.wire.nonce == n;
      }
    }
  }

  lemma {:induction false} RunTraces(y: System, events: seq<Event>, hash: AS.Hash)
    requires Ok(y, hash) && Traced(y)
    ensures Ok(Run(y, events, hash), hash) && Traced(Run(y, events, hash))
    decreases |events|
  {
    if events != [] {
      NextKeeps(y, events[0], hash);
      NextTraces(y, events[0], hash);
      RunTraces(Next(y, events[0], hash), events[1..], hash);
    }
  }

  lemma ReachableIsTraced(y: System, hash: AS.Hash)
    requires Reachable(y, hash)
    ensures Ok(y, hash) && Traced(y)
  {
    var directory, events :| y == Run(Initial(directory), events, hash);
    RunTraces(Initial(directory), events, hash);
  }

  /** In every reachable system, what ARMA has not sent the processor has not stored. */
  lemma NeverSentIsNeverStored(y: System, hash: AS.Hash, id: string)
    requires Reachable(y, hash)
    requires id in y.side.arma.transfers ==> y.side.arma.transfers[id].payloadHash.None?
    ensures id !in y.tables.transfers
  {
    ReachableIsTraced(y, hash);
  }
}
