/**
 What a REJECTED transfer at ARMA says about the processor.

 A request is live while the gateway still takes it, or while the processor still takes one the
 gateway has passed on. A rejected transfer that is not stored stays unstored exactly when none of
 its requests is live. Until then it may be held as accepted whatever ARMA makes of it: an
 unreadable answer to a delivered request is taken for a rejection.
 */
module LawShieldRejections {
  import opened Wrappers
  import Nonces
  import Json
  import A = ArmaTransfers
  import AS = ArmaSends
  import G = LawShieldGateway
  import S = LawShieldStore
  import P = LawShieldProcessor
  import D = LawShieldDecisions
  import opened LawShieldProtocol
  import opened LawShieldTraces
  import opened LawShieldClock

  /** Still inside the gateway's window, or passed on and still inside the processor's. */
  predicate Live(t: Timed, w: Wire) {
    || t.clock <= w.signedAt + S.MAX_CLOCK_SKEW_MS
    || (w in t.system.forwarded && t.clock <= w.outbound.sentAt + S.NONCE_VALIDITY_WINDOW_MS)
  }

  ghost predicate NothingLive(t: Timed, id: string) {
    forall w :: w in t.system.requests && w.outbound.transferId == id ==> !Live(t, w)
  }

  predicate Rejected(y: AS.Side, id: string) {
    id in y.arma.transfers && y.arma.transfers[id].status.Rejected?
  }

  // ----- A transfer with no live request stays as it is -----

  /** Rejected, not stored, and nothing about it is live. */
  ghost predicate Abandoned(t: Timed, id: string) {
    Rejected(t.system.side, id) && id !in t.system.tables.transfers && NothingLive(t, id)
  }

  lemma MoveLeavesRejected(y: AS.Side, m: AS.Move, hash: AS.Hash, id: string)
    requires AS.Ok(y, hash) && Marked(y) && Rejected(y, id)
    ensures var y' := AS.Moved(y, m, hash);
            && Rejected(y', id)
            && (y'.sends == y.sends || (|y'.sends| == |y.sends| + 1 && y'.sends[|y.sends|].transferId != id))
  {
    AS.MoveKeeps(y, m, hash);
    assert AS.Follows(y.arma.transfers[id], AS.Moved(y, m, hash).arma.transfers[id]);
    MoveMarks(y, m, hash);
  }

  /** Time passes, and nothing new is said about the transfer. */
  lemma NothingComesAlive(t: Timed, t': Timed, id: string)
    requires NothingLive(t, id) && t.clock <= t'.clock && t'.system.forwarded == t.system.forwarded
    requires forall w :: w in t'.system.requests && w.outbound.transferId == id ==> w in t.system.requests
    ensures NothingLive(t', id)
  {
  }

  lemma ArmaLeavesAbandoned(t: Timed, e: Event, now: int, hash: AS.Hash, id: string)
    requires Sound(t, hash) && Abandoned(t, id) && e.Arma? && t.clock <= now
    ensures Abandoned(Timed(Next(t.system, e, hash), now), id)
  {
    MoveLeavesRejected(t.system.side, e.move, hash, id);
    NothingComesAlive(t, Timed(Next(t.system, e, hash), now), id);
  }

  /** A dead request is not passed on. */
  lemma GatewayLeavesAbandoned(t: Timed, e: Event, now: int, hash: AS.Hash, id: string)
    requires Abandoned(t, id) && (e.Forward? || e.SignReceipt?) && t.clock <= now && ReadsClock(e, now)
    ensures Abandoned(Timed(Next(t.system, e, hash), now), id)
  {
    assert e.Forward? && Enabled(t.system, e) ==> e.wire.outbound.transferId != id;
  }

  /** A request too old for the processor is screened out. */
  lemma StaleStoresNothing(s: S.Tables, step: D.Step)
    requires step.request.body.Valid? ==>
               P.Distance(step.now, step.request.body.envelope.sentAt) > S.NONCE_VALIDITY_WINDOW_MS
    ensures D.Apply(s, step).0.transfers == s.transfers
  {
    assert !P.Screen(step.request, step.now).Proceed?;
    D.ScreenedEffect(s, step.fp, step.disabled, step.request, step.verdict, step.now, step.wallClock);
  }

  /** Any other decides about its own transfer. */
  lemma OwnStepStoresOwn(s: S.Tables, step: D.Step, env: P.Envelope, id: string)
    requires D.FourTables(s) && env.transferId != id && id !in s.transfers
    requires step.request.body.Valid? ==> step.request.body.envelope == env
    requires env.idempotencyKey in s.idempotency ==>
               && s.idempotency[env.idempotencyKey].transferId == env.transferId
               && s.idempotency[env.idempotencyKey].payloadHash == env.payloadHash
    ensures id !in D.Apply(s, step).0.transfers
  {
    var effect := OwnStepEffect(s, step, env);
  }

  lemma DecisionStoresOwn(y: System, e: Event, hash: AS.Hash, id: string)
    requires Ok(y, hash) && e.Decide? && Enabled(y, e) && id !in y.tables.transfers
    requires e.wire.outbound.transferId == id ==>
               P.Distance(e.at, e.wire.outbound.sentAt) > S.NONCE_VALIDITY_WINDOW_MS
    ensures id !in D.Apply(y.tables, StepOf(e)).0.transfers
  {
    var env := EnvelopeOf(e.wire.outbound);
    if env.transferId == id {
      StaleStoresNothing(y.tables, StepOf(e));
    } else {
      ForwardedIsOwn(y, e.wire, hash);
      OwnRequestFits(y, env, hash);
      OwnStepStoresOwn(y.tables, StepOf(e), env, id);
    }
  }

  lemma DecideLeavesAbandoned(t: Timed, e: Event, now: int, hash: AS.Hash, id: string)
    requires Sound(t, hash) && Abandoned(t, id) && e.Decide? && t.clock <= now && ReadsClock(e, now)
    ensures Abandoned(Timed(Next(t.system, e, hash), now), id)
  {
    if Enabled(t.system, e) { DecisionStoresOwn(t.system, e, hash, id); }
    NothingComesAlive(t, Timed(Next(t.system, e, hash), now), id);
  }

  lemma MomentLeavesAbandoned(t: Timed, m: Moment, hash: AS.Hash, id: string)
    requires Sound(t, hash) && Abandoned(t, id)
    ensures Abandoned(TimedNext(t, m, hash), id)
  {
    if m.now >= t.clock && ReadsClock(m.event, m.now) {
      match m.event {
        case Arma(_, _, _) => ArmaLeavesAbandoned(t, m.event, m.now, hash, id);
        case Decide(_, _, _, _, _, _, _, _) => DecideLeavesAbandoned(t, m.event, m.now, hash, id);
        case _ => GatewayLeavesAbandoned(t, m.event, m.now, hash, id);
      }
    }
  }

  lemma {:induction false} AbandonedForGood(t: Timed, later: seq<Moment>, hash: AS.Hash, id: string)
    requires Sound(t, hash) && Abandoned(t, id)
    ensures Abandoned(TimedRun(t, later, hash), id)
    decreases |later|
  {
    if later != [] {
      TimedNextKeeps(t, later[0], hash);
      MomentLeavesAbandoned(t, later[0], hash, id);
      AbandonedForGood(TimedNext(t, later[0], hash), later[1..], hash, id);
    }
  }

  // ----- A live request can be delivered now -----

  /** Nonces come well formed from the signer, and fresh: no two requests share one. */
  predicate NoncesFit(requests: set<Wire>) {
    forall a, b :: a in requests && b in requests ==> Nonces.WellFormedNonce(a.nonce) && (a.nonce == b.nonce ==> a == b)
  }

  const ALL_WRITES := S.FailPoints(false, false, false)

  function Zeros(n: nat): (s: string)
    ensures |s| == n && forall i :: 0 <= i < n ==> s[i] == '0'
  {
    if n == 0 then "" else Zeros(n - 1) + "0"
  }

  /** The hash of the raw body: nothing depends on its value. */
  function BodyHash(): (h: string)
    ensures P.IsSha256Hex(h)
  {
    Zeros(64)
  }

  /** The processor finds nothing against the request. */
  function DecisionOn(w: Wire, at: int): Event {
    Decide(w, BodyHash(), None, ALL_WRITES, false, Success([]), at, at)
  }

  /** The gateway, its replay guard at work, passes the request on unless it has; the processor decides. */
  function Delivery(t: Timed, w: Wire): seq<Moment> {
    (if w in t.system.forwarded then [] else [Moment(Forward(w, true, t.clock), t.clock)])
    + [Moment(DecisionOn(w, t.clock), t.clock)]
  }

  lemma NewRequestIsAccepted(s: S.Tables, nonce: string, env: P.Envelope, at: int)
    requires D.FourTables(s) && nonce !in s.nonces
    requires env.idempotencyKey !in s.idempotency && env.transferId !in s.transfers
    ensures D.Accepts(P.Decide(s, ALL_WRITES, nonce, env, Success([]), at, at).1)
  {
  }

  lemma DeliveryPassesScreening(w: Wire, at: int)
    requires Sendable(w.outbound) && Nonces.WellFormedNonce(w.nonce)
    requires P.Distance(at, w.outbound.sentAt) <= S.NONCE_VALIDITY_WINDOW_MS
    ensures P.Screen(RequestOf(w, BodyHash(), None), at) == P.Proceed(w.nonce, EnvelopeOf(w.outbound))
  {
  }

  /** What is bound is bound to a stored transfer. */
  lemma KeyIsFree(s: S.Tables, env: P.Envelope)
    requires D.FourTables(s) && env.transferId !in s.transfers
    requires env.idempotencyKey in s.idempotency ==> s.idempotency[env.idempotencyKey].transferId == env.transferId
    ensures env.idempotencyKey !in s.idempotency
  {
  }

  /** Passed on, inside the processor's window, and with a nonce the processor does not remember. */
  predicate Deliverable(y: System, w: Wire, at: int) {
    && w in y.forwarded && Nonces.WellFormedNonce(w.nonce) && w.nonce !in y.tables.nonces
    && P.Distance(at, w.outbound.sentAt) <= S.NONCE_VALIDITY_WINDOW_MS
    && w.outbound.transferId !in y.tables.transfers
  }

  lemma ForwardedIsAccepted(y: System, w: Wire, at: int, hash: AS.Hash)
    requires Ok(y, hash) && Deliverable(y, w, at)
    ensures Sendable(w.outbound) && D.Accepts(D.Apply(y.tables, StepOf(DecisionOn(w, at))).1)
  {
    ForwardedIsOwn(y, w, hash);
    OwnRequestFits(y, EnvelopeOf(w.outbound), hash);
    KeyIsFree(y.tables, EnvelopeOf(w.outbound));
    NewRequestIsAccepted(y.tables, w.nonce, EnvelopeOf(w.outbound), at);
    DeliveryPassesScreening(w, at);
    D.ScreenPassesOn(y.tables, ALL_WRITES, StepOf(DecisionOn(w, at)).request, Success([]), at, at);
  }

  predicate HeldFor(s: S.Tables, o: A.Outbound) {
    Held(s, o.transferId, o.payloadHash, P.ReceiptIdFor(o.transferId))
  }

  lemma ForwardedIsHeld(y: System, w: Wire, at: int, hash: AS.Hash)
    requires Ok(y, hash) && Deliverable(y, w, at)
    ensures var y' := Next(y, DecisionOn(w, at), hash); y'.side == y.side && HeldFor(y'.tables, w.outbound)
  {
    ForwardedIsAccepted(y, w, at, hash);
    NewReplyOk(y.tables, StepOf(DecisionOn(w, at)));
    D.AcceptanceIsDurable(y.tables, StepOf(DecisionOn(w, at)));
  }

  /** As long as the transfer is not stored, the nonces of its requests are unspent. */
  lemma UnstoredIsUnspent(y: System, w: Wire)
    requires Traced(y) && NoncesFit(y.requests) && w in y.requests && w.outbound.transferId !in y.tables.transfers
    ensures Nonces.WellFormedNonce(w.nonce) && w.nonce !in y.tables.nonces
  {
  }

  /** The guard has not seen a request that was not passed on, so it passes it on. */
  lemma LiveIsPassedOn(t: Timed, w: Wire, hash: AS.Hash)
    requires Sound(t, hash) && NoncesFit(t.system.requests)
    requires w in t.system.requests && Live(t, w) && w !in t.system.forwarded
    ensures var t' := TimedNext(t, Moment(Forward(w, true, t.clock), t.clock), hash);
            t'.clock == t.clock && t'.system == t.system.(gatewaySeen := t'.system.gatewaySeen,
                                                         forwarded := t.system.forwarded + {w})
  {
    LivePasses(t, w, hash);
    UnseenIsPassedOn(t.system, w, t.clock, hash);
  }

  lemma LivePasses(t: Timed, w: Wire, hash: AS.Hash)
    requires Sound(t, hash) && NoncesFit(t.system.requests)
    requires w in t.system.requests && Live(t, w) && w !in t.system.forwarded
    ensures w.nonce !in t.system.gatewaySeen && PassesGateway(w, t.clock)
  {
    assert w.outbound in t.system.side.sends;
  }

  lemma UnseenIsPassedOn(y: System, w: Wire, at: int, hash: AS.Hash)
    requires w in y.requests && w.nonce !in y.gatewaySeen && PassesGateway(w, at)
    ensures var y' := Next(y, Forward(w, true, at), hash);
            y' == y.(gatewaySeen := y'.gatewaySeen, forwarded := y.forwarded + {w})
  {
  }

  lemma LiveIsInWindow(t: Timed, w: Wire, hash: AS.Hash)
    requires Sound(t, hash) && w in t.system.requests && Live(t, w)
    ensures P.Distance(t.clock, w.outbound.sentAt) <= S.NONCE_VALIDITY_WINDOW_MS
  {
    assert w.outbound in t.system.side.sends;
  }

  lemma PassedOnIsHeld(t: Timed, w: Wire, hash: AS.Hash)
    requires Sound(t, hash) && NoncesFit(t.system.requests) && w in t.system.forwarded && Live(t, w)
    requires w.outbound.transferId !in t.system.tables.transfers
    ensures var t' := TimedNext(t, Moment(DecisionOn(w, t.clock), t.clock), hash);
            t'.clock == t.clock && t'.system.side == t.system.side && HeldFor(t'.system.tables, w.outbound)
  {
    LiveIsInWindow(t, w, hash);
    UnstoredIsUnspent(t.system, w);
    ForwardedIsHeld(t.system, w, t.clock, hash);
  }

  /** A live request about a transfer not stored yet is accepted once delivered; ARMA notices nothing. */
  lemma DeliveredIsHeld(t: Timed, w: Wire, hash: AS.Hash)
    requires Sound(t, hash) && NoncesFit(t.system.requests) && w in t.system.requests && Live(t, w)
    requires w.outbound.transferId !in t.system.tables.transfers
    ensures var t' := TimedRun(t, Delivery(t, w), hash);
            t'.clock == t.clock && t'.system.side == t.system.side && HeldFor(t'.system.tables, w.outbound)
  {
    var last := Moment(DecisionOn(w, t.clock), t.clock);
    if w in t.system.forwarded {
      PassedOnIsHeld(t, w, hash);
      assert Delivery(t, w) == [last];
      OneMoment(t, last, hash);
    } else {
      var first := Moment(Forward(w, true, t.clock), t.clock);
      LiveIsPassedOn(t, w, hash);
      TimedNextKeeps(t, first, hash);
      PassedOnIsHeld(TimedNext(t, first, hash), w, hash);
      TwoMoments(t, first, last, hash);
    }
  }

  lemma TwoMoments(t: Timed, a: Moment, b: Moment, hash: AS.Hash)
    ensures TimedRun(t, [a] + [b], hash) == TimedNext(TimedNext(t, a, hash), b, hash)
  {
    TimedRunOn(t, [a], [b], hash);
    OneMoment(t, a, hash);
    OneMoment(TimedNext(t, a, hash), b, hash);
  }

  // ----- What a rejection means -----

  /** Whatever happens from here on, the processor never stores the transfer. */
  ghost predicate NeverStored(t: Timed, hash: AS.Hash, id: string) {
    forall later :: id !in TimedRun(t, later, hash).system.tables.transfers
  }

  lemma LiveCanBeStored(t: Timed, hash: AS.Hash, w: Wire)
    requires Sound(t, hash) && NoncesFit(t.system.requests) && w in t.system.requests && Live(t, w)
    ensures !NeverStored(t, hash, w.outbound.transferId)
  {
    if w.outbound.transferId in t.system.tables.transfers {
      assert TimedRun(t, [], hash) == t;
    } else {
      DeliveredIsHeld(t, w, hash);
      assert w.outbound.transferId in TimedRun(t, Delivery(t, w), hash).system.tables.transfers;
    }
  }

  lemma NothingLiveIsNeverStored(t: Timed, hash: AS.Hash, id: string)
    requires Sound(t, hash) && Abandoned(t, id)
    ensures NeverStored(t, hash, id)
  {
    forall later ensures id !in TimedRun(t, later, hash).system.tables.transfers {
      AbandonedForGood(t, later, hash, id);
    }
  }

  /**
   What a rejection at ARMA is worth. As long as the processor has not stored the transfer, it
   never will, whatever happens, exactly when none of its requests is live.
   */
  lemma RejectionIsSafeIff(t: Timed, hash: AS.Hash, id: string)
    requires TimedReachable(t, hash) && Rejected(t.system.side, id)
    requires id !in t.system.tables.transfers && NoncesFit(t.system.requests)
    ensures NeverStored(t, hash, id) <==> NothingLive(t, id)
  {
    TimedReachableIsSound(t, hash);
    if NothingLive(t, id) {
      NothingLiveIsNeverStored(t, hash, id);
    } else {
      var w :| w in t.system.requests && w.outbound.transferId == id && Live(t, w);
      LiveCanBeStored(t, hash, w);
    }
  }

  /** The time of the last send, if any, is more than the processor's window ago. */
  predicate LongSent(r: A.Record, clock: int) {
    r.sentAt.Some? ==> r.sentAt.value + S.NONCE_VALIDITY_WINDOW_MS < clock
  }

  /**
   What ARMA can read off its own record: past the processor's window, or never sent, a rejected
   transfer not stored is safe from then on, whatever the nonces.
   */
  lemma LongSentIsSafe(t: Timed, hash: AS.Hash, id: string)
    requires TimedReachable(t, hash) && Rejected(t.system.side, id) && id !in t.system.tables.transfers
    requires LongSent(t.system.side.arma.transfers[id], t.clock)
    ensures NeverStored(t, hash, id)
  {
    TimedReachableIsSound(t, hash);
    forall w | w in t.system.requests && w.outbound.transferId == id
      ensures !Live(t, w)
    {
      assert SendOnClock(t.system.side.arma, t.clock, w.outbound);
    }
    NothingLiveIsNeverStored(t, hash, id);
  }

  /** And sent within the gateway's window, it can still be stored. */
  lemma JustSentIsUnsafe(t: Timed, hash: AS.Hash, id: string)
    requires TimedReachable(t, hash) && Rejected(t.system.side, id) && NoncesFit(t.system.requests)
    requires var r := t.system.side.arma.transfers[id];
             r.sentAt.Some? && t.clock <= r.sentAt.value + S.MAX_CLOCK_SKEW_MS
    ensures !NeverStored(t, hash, id)
  {
    TimedReachableIsSound(t, hash);
    var at := t.system.side.arma.transfers[id].sentAt.value;
    assert RecordMarked(t.system.side.sends, t.system.side.arma.transfers[id], id);
    var o :| o in t.system.side.sends && o.transferId == id && o.sentAt == at;
    assert OnTheWire(t.system.requests, o);
    var w :| w in t.system.requests && w.outbound == o;
    LiveCanBeStored(t, hash, w);
  }

  /** ARMA's fetch settles on a gateway answer made of a reply that was not JSON. */
  function Unreadable(o: A.Outbound, at: int): Moment {
    Moment(Arma(AS.SettleSend(o, A.Refused(502, Some("PROCESSOR_NON_JSON_RESPONSE"), false), at), "", at), at)
  }

  lemma UnreadableIsTerminal(o: A.Outbound, retryCount: nat)
    ensures A.Disposed(A.Refused(502, Some("PROCESSOR_NON_JSON_RESPONSE"), false), o, retryCount)
            == A.Terminal("PROCESSOR_NON_JSON_RESPONSE")
  {
  }

  lemma TerminalRejects(s: A.State, id: string, o: A.Outbound, code: string, at: int)
    requires id in s.transfers
    ensures var s' := A.Settled(s, id, o, A.Terminal(code), at); id in s'.transfers && s'.transfers[id].status.Rejected?
  {
  }

  lemma UnreadableRejects(t: Timed, hash: AS.Hash, o: A.Outbound)
    requires o in t.system.side.calls && o.transferId in t.system.side.arma.transfers
    ensures var t' := TimedRun(t, [Unreadable(o, t.clock)], hash);
            t'.clock == t.clock && Rejected(t'.system.side, o.transferId) && t'.system.tables == t.system.tables
  {
    OneMoment(t, Unreadable(o, t.clock), hash);
    UnreadableIsTerminal(o, t.system.side.arma.transfers[o.transferId].retryCount);
    TerminalRejects(t.system.side.arma, o.transferId, o, "PROCESSOR_NON_JSON_RESPONSE", t.clock);
  }

  /**
   While a send is outstanding and live it can still go either way: runs lead to REJECTED at ARMA
   with the transfer held as accepted by the processor, and with it not stored at all.
   */
  lemma OutstandingCanGoEitherWay(t: Timed, hash: AS.Hash, w: Wire)
    requires TimedReachable(t, hash) && w in t.system.requests && w.outbound in t.system.side.calls && Live(t, w)
    requires w.outbound.transferId !in t.system.tables.transfers && NoncesFit(t.system.requests)
    ensures var id, u := w.outbound.transferId, [Unreadable(w.outbound, t.clock)];
            && (var t' := TimedRun(t, Delivery(t, w) + u, hash);
                Rejected(t'.system.side, id) && HeldFor(t'.system.tables, w.outbound))
            && (var t' := TimedRun(t, u, hash);
                Rejected(t'.system.side, id) && id !in t'.system.tables.transfers)
  {
    TimedReachableIsSound(t, hash);
    assert AS.CallOk(t.system.side, w.outbound);
    DeliveredIsHeld(t, w, hash);
    TimedRunOn(t, Delivery(t, w), [Unreadable(w.outbound, t.clock)], hash);
    UnreadableRejects(TimedRun(t, Delivery(t, w), hash), hash, w.outbound);
    UnreadableRejects(t, hash, w.outbound);
  }

  // ----- A run that ends rejected at ARMA and accepted at the processor -----

  const SANDBOX := A.Directory(map["officer" := A.User("org", {A.AUTHORIZER_ROLE}, true)],
                               map["org" := A.OrgMapping("court", true)], map[])
  const DRAFTED := A.DraftRequest("t", "k", "org", Some("court"), None, "TRANSFER_STATUS", "r", Json.Obj([]))

  /** The one transfer in this status, and nothing has left ARMA yet. */
  predicate Prepared(t: Timed, status: A.Status) {
    var y := t.system;
    && t.clock == 0 && y.side.directory == SANDBOX && y.side.sends == [] && y.side.calls == multiset{}
    && y.requests == {} && y.tables == S.EMPTY_TABLES && "t" in y.side.arma.transfers
    && var r := y.side.arma.transfers["t"];
       && r.status == status && r.transferId == "t" && r.idempotencyKey == "k" && r.payload == []
       && r.armaOrgId == "org" && r.lawShieldOrgId == Some("court") && r.incidentId == None
       && r.recordType == "TRANSFER_STATUS" && r.recordId == "r"
       && (status.Draft? || r.authorizedBy == Some("officer"))
  }

  function Moving(m: AS.Move, nonce: string): Moment {
    Moment(Arma(m, nonce, 0), 0)
  }

  lemma DraftIsMade(hash: AS.Hash) returns (t: Timed)
    ensures TimedReachable(t, hash) && Prepared(t, A.Draft)
  {
    var start := Timed(Initial(SANDBOX), 0);
    assert TimedRun(start, [], hash) == start;
    var m := Moving(AS.Draft(false, "officer", DRAFTED), "");
    t := TimedNext(start, m, hash);
    StepsOn(start, m, hash);
  }

  lemma AuthorizationIsGiven(hash: AS.Hash) returns (t: Timed)
    ensures TimedReachable(t, hash) && Prepared(t, A.Authorized)
  {
    var before := DraftIsMade(hash);
    var m := Moving(AS.Permit(false, "officer", "t", "reasons given", 13, 0), "");
    t := TimedNext(before, m, hash);
    StepsOn(before, m, hash);
  }

  lemma TransferIsReady(hash: AS.Hash) returns (t: Timed)
    ensures TimedReachable(t, hash) && Prepared(t, A.ReadyToSend)
  {
    var before := AuthorizationIsGiven(hash);
    var m := Moving(AS.MakeReady(false, "t", None, None, 0), "");
    t := TimedNext(before, m, hash);
    StepsOn(before, m, hash);
  }

  lemma TransferIsSent(hash: AS.Hash, nonce: string) returns (t: Timed, w: Wire)
    requires hash([]) != ""
    ensures TimedReachable(t, hash) && t.system.tables == S.EMPTY_TABLES && t.system.requests == {w}
    ensures w.nonce == nonce && Live(t, w)
    ensures w.outbound in t.system.side.calls && w.outbound.transferId == "t" && w.outbound.payloadHash == hash([])
  {
    var before := TransferIsReady(hash);
    var m := Moving(AS.StartSend(false, "t", 0, None), nonce);
    t := TimedNext(before, m, hash);
    StepsOn(before, m, hash);
    w := Wire(A.OutboundOf(before.system.side.arma.transfers["t"], hash, 0), nonce, 0);
  }

  /**
   Rejected at ARMA, accepted at the processor: the transfer is sent, forwarded and accepted, and
   ARMA takes an unreadable answer for a rejection.
   */
  lemma RejectedYetHeld(hash: AS.Hash) returns (t: Timed)
    requires hash([]) != ""
    ensures TimedReachable(t, hash) && Rejected(t.system.side, "t")
    ensures Held(t.system.tables, "t", hash([]), P.ReceiptIdFor("t"))
  {
    var sent, w := TransferIsSent(hash, Zeros(20));
    OutstandingCanGoEitherWay(sent, hash, w);
    var later := Delivery(sent, w) + [Unreadable(w.outbound, sent.clock)];
    t := TimedRun(sent, later, hash);
    StaysTimedReachable(sent, later, hash);
  }
}
