/**
 What a 404 for the identity hint proves. The hint is the id that the first attempt of a create
 would have got. Whether its absence shows that the create never persisted depends on whether
 another request for the same key is bound, or can still be served: its nonce and the time in its
 signature decide that.
 */
module ActivationEvidence {
  import opened Wrappers
  import Nonces
  import PartnerClient
  import S = PartnerServer
  import A = ActivationService
  import AS = ActivationSends
  import opened ActivationProtocol
  import opened ActivationClock

  /** A request on the wire that could make the activation of this client's key. */
  predicate Competing(wire: Wire, clientId: string, key: string, q: string) {
    q in wire && wire[q].clientId == clientId && S.Complete(wire[q].body) && wire[q].body.idempotencyKey == Some(key)
  }

  /** Authentication can still let the request through: its time is not up, and its nonce unspent till then. */
  predicate Live(t: Timed, q: string)
    requires q in t.system.wire
  {
    var sent, nonces := t.system.wire[q], t.system.tables.nonces;
    var k, expiry := (sent.clientId, sent.nonce), sent.timestamp + S.MAX_CLOCK_SKEW_MS;
    && Nonces.WellFormedNonce(sent.nonce) && t.clock <= expiry
    && (k in nonces ==> nonces[k].firstSeenAt + S.NONCE_VALIDITY_WINDOW_MS < expiry)
  }

  /** Nothing new is sent: ARMA works on, and the server serves what is on the wire. */
  predicate NothingSent(moments: seq<Moment>) {
    forall m :: m in moments ==> m.event.Local? || m.event.Serve?
  }

  // ----- A request that is dead stays dead, and is refused -----

  /** What was remembered before still is, as it was; or it was too old. */
  predicate Remembers(before: map<(string, string), S.NonceRecord>, after: map<(string, string), S.NonceRecord>,
                      now: int) {
    forall k :: k in before ==>
      before[k].firstSeenAt + S.NONCE_VALIDITY_WINDOW_MS < now || (k in after && after[k] == before[k])
  }

  lemma ProcessingKeepsNonces(t: S.Tables, r: S.Request, c: S.Circumstances, hash: S.BodyHash)
    ensures match r.route
            case Create(body) =>
              body.Some? ==> S.ProcessCreate(t, r, body.value, hash(body.value), c).0.nonces == t.nonces
            case Change(action, id) => S.ProcessChange(t, r, action, id, c).0.nonces == t.nonces
            case _ => true
  {
  }

  lemma RoutingRemembers(t: S.Tables, r: S.Request, c: S.Circumstances, hash: S.BodyHash)
    ensures Remembers(t.nonces, S.Routed(t, r, c, hash).0.nonces, c.now)
  {
    ProcessingKeepsNonces(t, r, c, hash);
  }

  lemma PruningRemembers(before: map<(string, string), S.NonceRecord>, after: map<(string, string), S.NonceRecord>,
                         now: int)
    requires Remembers(S.Pruned(before, now), after, now)
    ensures Remembers(before, after, now)
  {
  }

  lemma HandlingNonces(t: S.Tables, r: S.Request, c: S.Circumstances, hash: S.BodyHash)
    ensures var nonces := S.Handle(t, r, c, hash).0.nonces;
            || nonces == t.nonces || nonces == S.Pruned(t.nonces, c.now)
            || nonces == S.Routed(t.(nonces := S.Pruned(t.nonces, c.now)), r, c, hash).0.nonces
  {
  }

  lemma HandlingRemembers(t: S.Tables, r: S.Request, c: S.Circumstances, hash: S.BodyHash)
    ensures Remembers(t.nonces, S.Handle(t, r, c, hash).0.nonces, c.now)
  {
    HandlingNonces(t, r, c, hash);
    RoutingRemembers(t.(nonces := S.Pruned(t.nonces, c.now)), r, c, hash);
    if S.Handle(t, r, c, hash).0.nonces != t.nonces {
      PruningRemembers(t.nonces, S.Handle(t, r, c, hash).0.nonces, c.now);
    }
  }

  lemma DeadStaysDead(t: Timed, m: Moment, hash: S.BodyHash, q: string)
    requires q in t.system.wire && !Live(t, q)
    ensures q in TimedNext(t, m, hash).system.wire && !Live(TimedNext(t, m, hash), q)
  {
    WireStays(t.system, m.event, hash);
    if m.event.Serve? { HandlingRemembers(t.system.tables, m.event.request, m.event.circumstances, hash); }
  }

  lemma DeadIsRefused(t: Timed, r: S.Request, c: S.Circumstances, hash: S.BodyHash)
    requires r.route.Create? && r.route.body.Some? && Enabled(t.system, Serve(r, c)) && t.clock <= c.now
    requires !Live(t, r.requestId)
    ensures S.Handle(t.system.tables, r, c, hash).0.core == t.system.tables.core
  {
    assert c.earlyAuth.Some? || S.Replayed(t.system.tables, r, c.now);
  }

  /** A key newly bound was bound by a create that names it, and its activation is stored. */
  lemma BindingIsMade(t: S.Tables, r: S.Request, c: S.Circumstances, hash: S.BodyHash, k: (string, string))
    requires k !in t.core.idempotency && k in S.Handle(t, r, c, hash).0.core.idempotency
    ensures r.route.Create? && r.route.body.Some? && S.Complete(r.route.body.value)
    ensures k == (r.clientId, r.route.body.value.idempotencyKey.value)
    ensures S.ActivationIdFor(r.requestId) in S.Handle(t, r, c, hash).0.core.activations
  {
    HandleRefusesOrRoutes(t, r, c, hash);
    var pruned := t.(nonces := S.Pruned(t.nonces, c.now));
    match r.route {
      case Create(body) =>
        if body.Some? { ProcessCreateIs(pruned, r, body.value, hash(body.value), c); }
      case Change(action, id) => ProcessChangeIs(pruned, r, action, id, c);
      case _ =>
    }
  }

  // ----- When the 404 is proof -----

  /** The key is unbound, and only the first request can still bind it; unless it has. */
  ghost predicate OnlyFirst(t: Timed, clientId: string, key: string, first: string) {
    || S.ActivationIdFor(first) in t.system.tables.core.activations
    || Undisputed(t, clientId, key, first)
  }

  ghost predicate Undisputed(t: Timed, clientId: string, key: string, first: string) {
    && (clientId, key) !in t.system.tables.core.idempotency
    && (forall q :: Competing(t.system.wire, clientId, key, q) && q != first ==> !Live(t, q))
  }

  lemma ServeKeepsOnlyFirst(t: Timed, e: Event, now: int, hash: S.BodyHash, clientId: string, key: string,
                            first: string)
    requires Sound(t, hash) && e.Serve? && Enabled(t.system, e) && t.clock <= now && ReadsClock(e, now)
    requires Undisputed(t, clientId, key, first)
    ensures var core := S.Handle(t.system.tables, e.request, e.circumstances, hash).0.core;
            (clientId, key) !in core.idempotency || S.ActivationIdFor(first) in core.activations
  {
    var r, c := e.request, e.circumstances;
    if (clientId, key) in S.Handle(t.system.tables, r, c, hash).0.core.idempotency {
      BindingIsMade(t.system.tables, r, c, hash, (clientId, key));
      if r.requestId != first { DeadIsRefused(t, r, c, hash); }
    }
  }

  lemma RivalsStayDead(t: Timed, m: Moment, hash: S.BodyHash, clientId: string, key: string, first: string)
    requires forall q :: Competing(t.system.wire, clientId, key, q) && q != first ==> !Live(t, q)
    requires m.event.Local? || m.event.Serve?
    ensures var t' := TimedNext(t, m, hash);
            forall q :: Competing(t'.system.wire, clientId, key, q) && q != first ==> !Live(t', q)
  {
    WireStays(t.system, m.event, hash);
    forall q | Competing(t.system.wire, clientId, key, q) && q != first
      ensures !Live(TimedNext(t, m, hash), q)
    {
      DeadStaysDead(t, m, hash, q);
    }
  }

  /** A moment in which nothing is sent leaves the core tables alone, or is a request handled. */
  lemma MomentCore(t: Timed, m: Moment, hash: S.BodyHash)
    requires m.event.Local? || m.event.Serve?
    ensures var core' := TimedNext(t, m, hash).system.tables.core;
            || core' == t.system.tables.core
            || (&& m.event.Serve? && Enabled(t.system, m.event) && t.clock <= m.now && ReadsClock(m.event, m.now)
                && core' == S.Handle(t.system.tables, m.event.request, m.event.circumstances, hash).0.core)
  {
  }

  lemma StoredStays(t: Timed, m: Moment, hash: S.BodyHash, id: string)
    requires Sound(t, hash) && id in t.system.tables.core.activations && (m.event.Local? || m.event.Serve?)
    ensures id in TimedNext(t, m, hash).system.tables.core.activations
  {
    MomentCore(t, m, hash);
    if TimedNext(t, m, hash).system.tables.core != t.system.tables.core {
      HandleServes(t.system.tables, t.system.wire, hash, m.event.request, m.event.circumstances);
    }
  }

  lemma MomentKeepsOnlyFirst(t: Timed, m: Moment, hash: S.BodyHash, clientId: string, key: string, first: string)
    requires Sound(t, hash) && OnlyFirst(t, clientId, key, first) && (m.event.Local? || m.event.Serve?)
    ensures OnlyFirst(TimedNext(t, m, hash), clientId, key, first)
  {
    if S.ActivationIdFor(first) in t.system.tables.core.activations {
      StoredStays(t, m, hash, S.ActivationIdFor(first));
    } else {
      RivalsStayDead(t, m, hash, clientId, key, first);
      MomentCore(t, m, hash);
      if TimedNext(t, m, hash).system.tables.core != t.system.tables.core {
        ServeKeepsOnlyFirst(t, m.event, m.now, hash, clientId, key, first);
      }
    }
  }

  lemma {:induction false} OnlyFirstForGood(t: Timed, later: seq<Moment>, hash: S.BodyHash, clientId: string,
                                            key: string, first: string)
    requires Sound(t, hash) && OnlyFirst(t, clientId, key, first) && NothingSent(later)
    ensures OnlyFirst(TimedRun(t, later, hash), clientId, key, first)
    decreases |later|
  {
    if later != [] {
      assert later[0] in later;
      TimedNextKeeps(t, later[0], hash);
      MomentKeepsOnlyFirst(t, later[0], hash, clientId, key, first);
      OnlyFirstForGood(TimedNext(t, later[0], hash), later[1..], hash, clientId, key, first);
    }
  }

  const NO_FAILURES := S.FailPoints(false, false, false, false)

  /** The first time from now on at which the request's nonce is not taken for a replay. */
  function ServiceTime(t: Timed, q: string): int
    requires q in t.system.wire
  {
    var k := (t.system.wire[q].clientId, t.system.wire[q].nonce);
    if k !in t.system.tables.nonces then t.clock
    else
      var free := t.system.tables.nonces[k].firstSeenAt + S.NONCE_VALIDITY_WINDOW_MS + 1;
      if free < t.clock then t.clock else free
  }

  /** An undisturbed service of the request then. */
  function Service(t: Timed, q: string): Moment
    requires q in t.system.wire
  {
    var sent, now := t.system.wire[q], ServiceTime(t, q);
    Moment(Serve(S.Request(S.Create(Some(sent.body)), sent.clientId, "partner", q, sent.nonce),
                 S.Circumstances(false, None, None, None, None, None, true, NO_FAILURES, now)), now)
  }

  /** A live competing request, once served, binds its key and stores its own activation only. */
  lemma LiveIsBound(t: Timed, hash: S.BodyHash, clientId: string, key: string, q: string)
    requires OnClock(t) && Competing(t.system.wire, clientId, key, q) && Live(t, q)
    requires (clientId, key) !in t.system.tables.core.idempotency
    ensures var t' := TimedNext(t, Service(t, q), hash);
            && t'.clock == ServiceTime(t, q) && t'.system.wire == t.system.wire && t'.system.side == t.system.side
            && (clientId, key) in t'.system.tables.core.idempotency
            && t'.system.tables.core.activations.Keys
               == t.system.tables.core.activations.Keys + {S.ActivationIdFor(q)}
            && t'.system.tables.nonces.Keys <= t.system.tables.nonces.Keys + {(clientId, t.system.wire[q].nonce)}
  {
    var e := Service(t, q).event;
    var tables := t.system.tables.(nonces := S.Pruned(t.system.tables.nonces, e.circumstances.now));
    assert Enabled(t.system, e);
    assert S.Handle(t.system.tables, e.request, e.circumstances, hash)
           == S.Routed(tables, e.request, e.circumstances, hash);
  }

  /** Whatever ARMA and the server still do with what was sent: no hint stored, then no key bound. */
  ghost predicate ProvesUnbound(t: Timed, hash: S.BodyHash, clientId: string, key: string, first: string) {
    forall later :: NothingSent(later)
                    && S.ActivationIdFor(first) !in TimedRun(t, later, hash).system.tables.core.activations ==>
      (clientId, key) !in TimedRun(t, later, hash).system.tables.core.idempotency
  }

  lemma RivalBinds(t: Timed, hash: S.BodyHash, clientId: string, key: string, first: string, q: string)
    requires OnClock(t) && S.ActivationIdFor(first) !in t.system.tables.core.activations
    requires Competing(t.system.wire, clientId, key, q) && q != first && Live(t, q)
    requires (clientId, key) !in t.system.tables.core.idempotency
    ensures !ProvesUnbound(t, hash, clientId, key, first)
  {
    var later := [Service(t, q)];
    LiveIsBound(t, hash, clientId, key, q);
    OneMoment(t, later[0], hash);
    IdsAreTheirRequests(first);
    IdsAreTheirRequests(q);
    assert NothingSent(later);
    assert (clientId, key) in TimedRun(t, later, hash).system.tables.core.idempotency;
  }

  lemma BoundIsNoProof(t: Timed, hash: S.BodyHash, clientId: string, key: string, first: string)
    requires S.ActivationIdFor(first) !in t.system.tables.core.activations
    requires (clientId, key) in t.system.tables.core.idempotency
    ensures !ProvesUnbound(t, hash, clientId, key, first)
  {
    assert TimedRun(t, [], hash) == t && NothingSent([]);
  }

  /**
   When the 404 is proof. While nothing is stored under the hint, the key is unbound and stays so
   whatever is still done with what was sent, exactly when no other request for the key is bound or
   live.
   */
  lemma NotFoundIsProofIff(t: Timed, hash: S.BodyHash, clientId: string, key: string, first: string)
    requires TimedReachable(t, hash) && Injective(hash)
    requires S.ActivationIdFor(first) !in t.system.tables.core.activations
    ensures ProvesUnbound(t, hash, clientId, key, first) <==> Undisputed(t, clientId, key, first)
  {
    TimedReachableIsSound(t, hash);
    if Undisputed(t, clientId, key, first) {
      forall later | NothingSent(later)
                     && S.ActivationIdFor(first) !in TimedRun(t, later, hash).system.tables.core.activations
        ensures (clientId, key) !in TimedRun(t, later, hash).system.tables.core.idempotency
      {
        OnlyFirstForGood(t, later, hash, clientId, key, first);
      }
    } else if (clientId, key) in t.system.tables.core.idempotency {
      BoundIsNoProof(t, hash, clientId, key, first);
    } else {
      var q :| Competing(t.system.wire, clientId, key, q) && q != first && Live(t, q);
      RivalBinds(t, hash, clientId, key, first, q);
    }
  }

  /** A bound key was bound by a competing request, whose activation is stored. */
  lemma BoundHasItsRequest(y: System, hash: S.BodyHash, clientId: string, key: string) returns (q: string)
    requires Ok(y, hash) && (clientId, key) in y.tables.core.idempotency
    ensures Competing(y.wire, clientId, key, q) && S.ActivationIdFor(q) in y.tables.core.activations
  {
    assert BindingOk(y.tables.core, y.wire, (clientId, key));
    var id := y.tables.core.idempotency[(clientId, key)].activationId;
    assert ActivationOk(y.tables.core, y.wire, hash, id);
    q := RequestIdOf(id);
  }

  /** What ARMA can tell by itself: for a key of its own, after a create of one attempt, the 404 is proof. */
  lemma SoleAttemptIsProof(t: Timed, hash: S.BodyHash, clientId: string, key: string, first: string)
    requires TimedReachable(t, hash) && Injective(hash)
    requires S.ActivationIdFor(first) !in t.system.tables.core.activations
    requires forall q :: Competing(t.system.wire, clientId, key, q) ==> q == first
    ensures ProvesUnbound(t, hash, clientId, key, first)
  {
    TimedReachableIsSound(t, hash);
    if (clientId, key) in t.system.tables.core.idempotency {
      var q := BoundHasItsRequest(t.system, hash, clientId, key);
    }
    NotFoundIsProofIff(t, hash, clientId, key, first);
  }

  // ----- A run in which the 404 misleads -----

  const RECORD := A.Record("r", "key", "arma", "org", "capability", "binding", A.ActivationSent, None, None, None, None)
  const CALL := A.CreateCall("r", "org", "capability", "binding", "key")
  const FIRST_NONCE := "00000000000000000000"
  const SECOND_NONCE := "11111111111111111111"

  /** ARMA has begun its create: the record stands at ACTIVATION_SENT and the call is in flight. */
  predicate Begun(t: Timed) {
    && t.clock == 0 && t.system.side.store == A.State(map["r" := RECORD], ["r"], map[])
    && t.system.side.calls == multiset{CALL}
  }

  lemma CreateBegun(hash: S.BodyHash) returns (t: Timed)
    ensures TimedReachable(t, hash) && Begun(t) && t.system.wire == map[] && t.system.tables == S.EMPTY
  {
    var start := Timed(START, 0);
    var m := Moment(Local(AS.DoActivate(false, A.Intent("arma", "capability", "binding", Some("key")),
                                        A.Preflight(Some("org"), false, false), "stable", "r", A.Lives), None), 0);
    assert TimedRun(start, [], hash) == start;
    t := TimedNext(start, m, hash);
    StepsOn(start, m, hash);
  }

  /** Two attempts of that one create are on the wire, each with a nonce of its own. */
  lemma TwoAttempts(hash: S.BodyHash, first: string, second: string) returns (t: Timed)
    requires first != second
    ensures TimedReachable(t, hash) && Begun(t) && t.system.tables == S.EMPTY && OnClock(t)
    ensures t.system.wire == map[first := Attempt(CALL, "client", FIRST_NONCE, 0),
                                 second := Attempt(CALL, "client", SECOND_NONCE, 0)]
  {
    var t0 := CreateBegun(hash);
    assert CALL in t0.system.side.calls;
    var one := Moment(Emit(first, CALL, "client", FIRST_NONCE, 0), 0);
    var t1 := TimedNext(t0, one, hash);
    StepsOn(t0, one, hash);
    var two := Moment(Emit(second, CALL, "client", SECOND_NONCE, 0), 0);
    t := TimedNext(t1, two, hash);
    StepsOn(t1, two, hash);
  }

  /** Only the second attempt has reached the server. */
  predicate SecondBound(t: Timed, second: string) {
    && ("client", "key") in t.system.tables.core.idempotency
    && t.system.tables.core.activations.Keys == {S.ActivationIdFor(second)}
    && t.system.tables.nonces.Keys <= {("client", SECOND_NONCE)}
  }

  lemma SecondServed(hash: S.BodyHash, first: string, second: string) returns (t: Timed)
    requires first != second
    ensures TimedReachable(t, hash) && Begun(t) && SecondBound(t, second)
  {
    var t0 := TwoAttempts(hash, first, second);
    LiveIsBound(t0, hash, "client", "key", second);
    t := TimedNext(t0, Service(t0, second), hash);
    StepsOn(t0, Service(t0, second), hash);
  }

  /** ARMA saw no answer: the hint is the first attempt's, and the status query is under way. */
  lemma QueryUnderWay(hash: S.BodyHash, first: string, second: string) returns (t: Timed)
    requires first != second
    ensures TimedReachable(t, hash) && SecondBound(t, second)
    ensures var side := t.system.side;
            && A.ReconcileCall("r", S.ActivationIdFor(first), 1) in side.calls && "r" in side.store.activations
            && side.store.activations["r"].identityHint == Some(S.ActivationIdFor(first))
            && side.store.activations["r"].idempotencyKey == "key"
  {
    var t0 := SecondServed(hash, first, second);
    var done := Moment(Local(AS.CreateDone(CALL, first, A.Failed(PartnerClient.Ambiguous, None, None)), None), 0);
    assert CALL in t0.system.side.calls;
    var t1 := TimedNext(t0, done, hash);
    StepsOn(t0, done, hash);
    assert S.ActivationIdFor(first) != "";
    t := TimedNext(t1, Moment(Local(AS.DoReconcile("r"), None), 0), hash);
    StepsOn(t1, Moment(Local(AS.DoReconcile("r"), None), 0), hash);
  }

  /**
   The 404 that proves nothing: the server answers ARMA's query for the hint with 404 although the
   key has its activation, made by the second attempt of the very create that is asked about.
   */
  lemma NotFoundProvesNothing(hash: S.BodyHash, first: string, second: string, c: S.Circumstances)
    returns (t: Timed)
    requires first != second
    requires !c.disabled && c.earlyAuth.None? && c.lateAuth.None? && c.throttled.None?
    ensures TimedReachable(t, hash)
    ensures var y, hint := t.system, S.ActivationIdFor(first);
            && A.ReconcileCall("r", hint, 1) in y.side.calls && "r" in y.side.store.activations
            && y.side.store.activations["r"].identityHint == Some(hint)
            && S.Handle(y.tables, S.Request(S.Status(hint), "client", "partner", "query", "fresh"), c, hash).1
               == Some(S.Refused(404, "ACTIVATION_UNKNOWN"))
            && ("client", y.side.store.activations["r"].idempotencyKey) in y.tables.core.idempotency
  {
    t := QueryUnderWay(hash, first, second);
    IdsAreTheirRequests(first);
    IdsAreTheirRequests(second);
    assert ("client", "fresh") != ("client", SECOND_NONCE);
  }
}
