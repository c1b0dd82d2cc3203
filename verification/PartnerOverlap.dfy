/**
 The partner server's create split at the one place where it lets other requests in: the call to
 the downstream service. The key is looked up before that call and not again after it.
 */
module PartnerOverlap {
  import opened Wrappers
  import Nonces
  import S = PartnerServer
  import opened ActivationProtocol

  /** A create whose downstream call is under way; `at` is the time it goes by. */
  datatype Pending = Pending(request: S.Request, body: S.Body, at: int)

  datatype Server = Server(tables: S.Tables, wire: Wire, pending: multiset<Pending>, receipts: set<S.SignedReceipt>)

  const IDLE := Server(S.EMPTY, map[], multiset{}, {})

  datatype Step =
    | Send(requestId: string, sent: Sent)
    | Arrive(request: S.Request, circumstances: S.Circumstances)
    | Finish(create: Pending, downstreamOk: bool, fp: S.FailPoints)

  /** The create gets as far as the downstream call. */
  predicate Waits(t: S.Tables, r: S.Request, c: S.Circumstances, hash: S.BodyHash) {
    && r.route.Create? && r.route.body.Some?
    && !c.disabled && c.unreadable.None? && c.earlyAuth.None? && c.lateAuth.None? && c.throttled.None?
    && !S.Replayed(t, r, c.now)
    && S.ResolveCreate(WhileWaiting(t, c.now), r, r.route.body.value, hash(r.route.body.value), c).Fresh?
  }

  function WhileWaiting(t: S.Tables, now: int): S.Tables {
    t.(nonces := S.Pruned(t.nonces, now))
  }

  function PendingOf(r: S.Request, now: int): Pending
    requires r.route.Create? && r.route.body.Some?
  {
    Pending(r, r.route.body.value, now)
  }

  /** The rest of it, once the downstream service has answered. */
  function Finished(t: S.Tables, p: Pending, downstreamOk: bool, fp: S.FailPoints, hash: S.BodyHash):
    (S.Tables, Option<S.Reply>)
    requires S.Complete(p.body)
  {
    S.Finished(S.FinishCreate(t, p.request, p.body, hash(p.body), downstreamOk, fp, p.at), p.request, p.at)
  }

  /** With nothing in between, the two halves are the whole. */
  lemma HandleIsBoth(t: S.Tables, r: S.Request, c: S.Circumstances, hash: S.BodyHash)
    requires Waits(t, r, c, hash)
    ensures S.Complete(r.route.body.value)
    ensures S.Handle(t, r, c, hash) == Finished(WhileWaiting(t, c.now), PendingOf(r, c.now), c.downstreamOk, c.fp, hash)
  {
  }

  predicate Enabled(y: Server, e: Step) {
    match e
    case Send(id, _) => id !in y.wire
    case Arrive(r, c) =>
      r.route.Create? && r.route.body.Some? ==>
        Carries(y.wire, r) && (!Timely(y.wire[r.requestId], c.now) ==> c.earlyAuth.Some?)
    case Finish(p, _, _) => p in y.pending && S.Complete(p.body)
  }

  function Replied(y: Server, result: (S.Tables, Option<S.Reply>)): Server {
    y.(tables := result.0,
       receipts := y.receipts + (if result.1.Some? && result.1.value.Receipted? then {result.1.value.receipt} else {}))
  }

  function Next(y: Server, e: Step, hash: S.BodyHash): Server {
    if !Enabled(y, e) then y
    else
      match e
      case Send(id, sent) => y.(wire := y.wire[id := sent])
      case Arrive(r, c) =>
        if Waits(y.tables, r, c, hash) then
          y.(tables := WhileWaiting(y.tables, c.now), pending := y.pending + multiset{PendingOf(r, c.now)})
        else Replied(y, S.Handle(y.tables, r, c, hash))
      case Finish(p, ok, fp) =>
        Replied(y.(pending := y.pending - multiset{p}), Finished(y.tables, p, ok, fp, hash))
  }

  function Run(y: Server, steps: seq<Step>, hash: S.BodyHash): Server
    decreases |steps|
  {
    if steps == [] then y else Run(Next(y, steps[0], hash), steps[1..], hash)
  }

  function KeyOf(p: Pending): (string, string)
    requires S.Complete(p.body)
  {
    (p.request.clientId, p.body.idempotencyKey.value)
  }

  // ----- What a finishing create does to the tables -----

  /** The pending create is one that was sent. */
  predicate PendingOk(wire: Wire, p: Pending) {
    && S.Complete(p.body) && p.request.requestId in wire
    && wire[p.request.requestId].clientId == p.request.clientId && wire[p.request.requestId].body == p.body
  }

  ghost predicate PendingsOk(y: Server) {
    forall p :: p in y.pending ==> PendingOk(y.wire, p)
  }

  /** The key is unbound, or bound to what this very request made. */
  predicate Unclaimed(core: S.Core, p: Pending)
    requires S.Complete(p.body)
  {
    KeyOf(p) in core.idempotency ==> core.idempotency[KeyOf(p)].activationId == S.ActivationIdFor(p.request.requestId)
  }

  lemma CreatingKeeps(core: S.Core, wire: Wire, hash: S.BodyHash, p: Pending)
    requires CoreOk(core, wire, hash) && PendingOk(wire, p) && Unclaimed(core, p)
    ensures CoreOk(S.Created(core, p.request, p.body, hash(p.body), p.at), wire, hash)
  {
    var id := S.ActivationIdFor(p.request.requestId);
    var core' := S.Created(core, p.request, p.body, hash(p.body), p.at);
    IdsAreTheirRequests(p.request.requestId);
    forall a | a in core'.activations
      ensures ActivationOk(core', wire, hash, a)
    {
      if a != id { assert ActivationOk(core, wire, hash, a); }
    }
    forall key | key in core'.idempotency
      ensures BindingOk(core', wire, key)
    {
      if key != KeyOf(p) { assert BindingOk(core, wire, key); }
    }
  }

  /** A finishing create stores all of itself or nothing. */
  lemma FinishingCore(t: S.Tables, p: Pending, ok: bool, fp: S.FailPoints, hash: S.BodyHash)
    requires S.Complete(p.body)
    ensures var core' := Finished(t, p, ok, fp, hash).0.core;
            if ok && !S.AnyWriteFails(fp) then core' == S.Created(t.core, p.request, p.body, hash(p.body), p.at)
            else core' == t.core
  {
  }

  /** A create that does not wait, like any other request, binds no key. */
  lemma OthersBindNothing(t: S.Tables, r: S.Request, c: S.Circumstances, hash: S.BodyHash)
    requires !Waits(t, r, c, hash)
    ensures S.Handle(t, r, c, hash).0.core.idempotency == t.core.idempotency
  {
    HandleRefusesOrRoutes(t, r, c, hash);
    var t1 := WhileWaiting(t, c.now);
    match r.route {
      case Create(body) => if body.Some? { SettledKeepsCore(t1, r, body.value, hash(body.value), c); }
      case Change(action, id) => ProcessChangeIs(t1, r, action, id, c);
      case _ =>
    }
  }

  lemma SettledKeepsCore(t: S.Tables, r: S.Request, b: S.Body, hash: string, c: S.Circumstances)
    ensures var res := S.ResolveCreate(t, r, b, hash, c); res.Settled? ==> res.tables.core == t.core
  {
  }

  // ----- Creates that do not overlap -----

  /** Pending creates of one key are repeats of one request, and nothing else has taken the key. */
  ghost predicate Exclusive(y: Server)
    requires PendingsOk(y)
  {
    && (forall p, q :: p in y.pending && q in y.pending && KeyOf(p) == KeyOf(q) ==>
          p.request.requestId == q.request.requestId)
    && (forall p :: p in y.pending ==> Unclaimed(y.tables.core, p))
  }

  ghost predicate SerialOk(y: Server, hash: S.BodyHash) {
    CoreOk(y.tables.core, y.wire, hash) && PendingsOk(y) && Exclusive(y)
  }

  /** The create begins to wait while another request's create of its key does. */
  ghost predicate Overlaps(y: Server, e: Step, hash: S.BodyHash) {
    && e.Arrive? && Enabled(y, e) && Waits(y.tables, e.request, e.circumstances, hash)
    && (exists p :: p in y.pending && S.Complete(p.body) && KeyOf(p) == KeyOf(PendingOf(e.request, e.circumstances.now))
                    && p.request.requestId != e.request.requestId)
  }

  ghost predicate Serial(y: Server, steps: seq<Step>, hash: S.BodyHash)
    decreases |steps|
  {
    steps == [] || (!Overlaps(y, steps[0], hash) && Serial(Next(y, steps[0], hash), steps[1..], hash))
  }

  lemma WaitingKeeps(y: Server, e: Step, hash: S.BodyHash)
    requires SerialOk(y, hash) && e.Arrive? && Enabled(y, e) && Waits(y.tables, e.request, e.circumstances, hash)
    requires !Overlaps(y, e, hash)
    ensures SerialOk(Next(y, e, hash), hash)
  {
    var p := PendingOf(e.request, e.circumstances.now);
    assert PendingOk(y.wire, p) && KeyOf(p) !in y.tables.core.idempotency;
    assert forall q :: q in Next(y, e, hash).pending ==> q == p || q in y.pending;
  }

  /** What a finishing create binds is unclaimed to every pending create of the same key. */
  lemma OthersStayUnclaimed(y: Server, core': S.Core, p: Pending, hash: S.BodyHash)
    requires PendingsOk(y) && Exclusive(y) && p in y.pending
    requires core' == y.tables.core || core' == S.Created(y.tables.core, p.request, p.body, hash(p.body), p.at)
    ensures forall q :: q in y.pending ==> Unclaimed(core', q)
  {
    forall q | q in y.pending
      ensures Unclaimed(core', q)
    {
      assert Unclaimed(y.tables.core, q);
    }
  }

  lemma FinishKeeps(y: Server, e: Step, hash: S.BodyHash)
    requires SerialOk(y, hash) && e.Finish? && Enabled(y, e)
    ensures SerialOk(Next(y, e, hash), hash)
  {
    var core' := Finished(y.tables, e.create, e.downstreamOk, e.fp, hash).0.core;
    FinishingCore(y.tables, e.create, e.downstreamOk, e.fp, hash);
    CreatingKeeps(y.tables.core, y.wire, hash, e.create);
    OthersStayUnclaimed(y, core', e.create, hash);
    FewerKeep(y, Next(y, e, hash), hash);
  }

  lemma FewerKeep(y: Server, y': Server, hash: S.BodyHash)
    requires PendingsOk(y) && Exclusive(y) && y'.wire == y.wire && CoreOk(y'.tables.core, y.wire, hash)
    requires forall q :: q in y'.pending ==> q in y.pending && Unclaimed(y'.tables.core, q)
    ensures SerialOk(y', hash)
  {
  }

  lemma OtherKeeps(y: Server, e: Step, hash: S.BodyHash)
    requires SerialOk(y, hash) && Injective(hash) && e.Arrive? && Enabled(y, e)
    requires !Waits(y.tables, e.request, e.circumstances, hash)
    ensures SerialOk(Next(y, e, hash), hash)
  {
    HandleServes(y.tables, y.wire, hash, e.request, e.circumstances);
    OthersBindNothing(y.tables, e.request, e.circumstances, hash);
  }

  lemma SendKeeps(y: Server, e: Step, hash: S.BodyHash)
    requires SerialOk(y, hash) && e.Send? && Enabled(y, e)
    ensures SerialOk(Next(y, e, hash), hash)
  {
    WireGrows(y.tables.core, y.wire, hash, e.requestId, e.sent);
    assert PendingsOk(Next(y, e, hash));
  }

  lemma SerialNextKeeps(y: Server, e: Step, hash: S.BodyHash)
    requires SerialOk(y, hash) && Injective(hash) && !Overlaps(y, e, hash)
    ensures SerialOk(Next(y, e, hash), hash)
  {
    if Enabled(y, e) {
      match e {
        case Send(_, _) => SendKeeps(y, e, hash);
        case Arrive(r, c) =>
          if Waits(y.tables, r, c, hash) { WaitingKeeps(y, e, hash); } else { OtherKeeps(y, e, hash); }
        case Finish(_, _, _) => FinishKeeps(y, e, hash);
      }
    }
  }

  lemma {:induction false} SerialRunKeeps(y: Server, steps: seq<Step>, hash: S.BodyHash)
    requires SerialOk(y, hash) && Injective(hash) && Serial(y, steps, hash)
    ensures SerialOk(Run(y, steps, hash), hash)
    decreases |steps|
  {
    if steps != [] {
      SerialNextKeeps(y, steps[0], hash);
      SerialRunKeeps(Next(y, steps[0], hash), steps[1..], hash);
    }
  }

  /** This activation was made for this client and key. */
  predicate MadeFor(y: Server, key: (string, string), id: string) {
    && id in y.tables.core.activations && RequestIdOf(id) in y.wire
    && key == (y.wire[RequestIdOf(id)].clientId, y.tables.core.activations[id].idempotencyKey)
  }

  ghost predicate OnePerKey(y: Server) {
    forall key, a, b :: MadeFor(y, key, a) && MadeFor(y, key, b) ==> a == b
  }

  lemma CoreOkIsOnePerKey(y: Server, hash: S.BodyHash)
    requires CoreOk(y.tables.core, y.wire, hash)
    ensures OnePerKey(y)
  {
    forall key, a, b | MadeFor(y, key, a) && MadeFor(y, key, b)
      ensures a == b
    {
      assert ActivationOk(y.tables.core, y.wire, hash, a) && ActivationOk(y.tables.core, y.wire, hash, b);
    }
  }

  /**
   At most one activation per client and key, in every run in which no two requests for one key
   wait for the downstream service together.
   */
  lemma SerialRunsMakeOne(steps: seq<Step>, hash: S.BodyHash)
    requires Serial(IDLE, steps, hash) && Injective(hash)
    ensures OnePerKey(Run(IDLE, steps, hash))
  {
    SerialRunKeeps(IDLE, steps, hash);
    CoreOkIsOnePerKey(Run(IDLE, steps, hash), hash);
  }

  // ----- Creates that do -----

  /** A wire that only grows, and no new pending create but one that was sent. */
  lemma PendingsStay(y: Server, y': Server)
    requires PendingsOk(y) && forall q :: q in y.wire ==> q in y'.wire && y'.wire[q] == y.wire[q]
    requires forall p :: p in y'.pending ==> p in y.pending || PendingOk(y.wire, p)
    ensures PendingsOk(y')
  {
  }

  lemma NextPendings(y: Server, e: Step, hash: S.BodyHash)
    ensures var y' := Next(y, e, hash);
            || y'.pending <= y.pending
            || (&& e.Arrive? && Enabled(y, e) && Waits(y.tables, e.request, e.circumstances, hash)
                && y'.pending == y.pending + multiset{PendingOf(e.request, e.circumstances.now)})
    ensures forall q :: q in y.wire ==> q in Next(y, e, hash).wire && Next(y, e, hash).wire[q] == y.wire[q]
  {
  }

  /** In any run at all, a pending create is one that was sent. */
  lemma NextKeepsPendings(y: Server, e: Step, hash: S.BodyHash)
    requires PendingsOk(y)
    ensures PendingsOk(Next(y, e, hash))
  {
    var y' := Next(y, e, hash);
    NextPendings(y, e, hash);
    forall p | p in y'.pending && p !in y.pending
      ensures PendingOk(y.wire, p)
    {
      assert p == PendingOf(e.request, e.circumstances.now);
    }
    PendingsStay(y, y');
  }

  lemma {:induction false} RunKeepsPendings(y: Server, steps: seq<Step>, hash: S.BodyHash)
    requires PendingsOk(y)
    ensures PendingsOk(Run(y, steps, hash))
    decreases |steps|
  {
    if steps != [] {
      NextKeepsPendings(y, steps[0], hash);
      RunKeepsPendings(Next(y, steps[0], hash), steps[1..], hash);
    }
  }

  predicate OnlyFinishes(steps: seq<Step>) {
    forall e :: e in steps ==> e.Finish?
  }

  lemma {:induction false} FinishesAreSerial(y: Server, steps: seq<Step>, hash: S.BodyHash)
    requires OnlyFinishes(steps)
    ensures Serial(y, steps, hash)
    decreases |steps|
  {
    if steps != [] {
      assert steps[0].Finish?;
      FinishesAreSerial(Next(y, steps[0], hash), steps[1..], hash);
    }
  }

  const NO_FAILURES := S.FailPoints(false, false, false, false)

  function Undisturbed(p: Pending): Step {
    Finish(p, true, NO_FAILURES)
  }

  /** A receipt, not for a duplicate, names this activation. */
  predicate Acknowledged(y: Server, id: string) {
    exists r :: r in y.receipts && r.activationId == id && !r.duplicate
  }

  /** An undisturbed finish makes the create's activation and keeps every other. */
  lemma FinishMakes(y: Server, p: Pending, hash: S.BodyHash)
    requires PendingsOk(y) && p in y.pending
    ensures var y' := Next(y, Undisturbed(p), hash);
            && y'.wire == y.wire && y'.pending == y.pending - multiset{p}
            && MadeFor(y', KeyOf(p), S.ActivationIdFor(p.request.requestId))
            && (forall key, a :: MadeFor(y, key, a) && a != S.ActivationIdFor(p.request.requestId) ==>
                  MadeFor(y', key, a))
            && Acknowledged(y', S.ActivationIdFor(p.request.requestId))
            && y.receipts <= y'.receipts
  {
    IdsAreTheirRequests(p.request.requestId);
    assert PendingOk(y.wire, p);
    FinishingCore(y.tables, p, true, NO_FAILURES, hash);
    var receipt := S.CreateReceipt(p.request, p.body, S.ReceiptIdFor(S.CreateOp, p.request.requestId),
                                   S.ActivationIdFor(p.request.requestId), false, p.at);
    assert receipt in Next(y, Undisturbed(p), hash).receipts;
  }

  lemma OneStep(y: Server, e: Step, hash: S.BodyHash)
    ensures Run(y, [e], hash) == Next(y, e, hash)
  {
    assert [e][1..] == [];
  }

  lemma TwoSteps(y: Server, a: Step, b: Step, hash: S.BodyHash)
    ensures Run(y, [a, b], hash) == Next(Next(y, a, hash), b, hash)
  {
    assert [a, b][1..] == [b];
    OneStep(Next(y, a, hash), b, hash);
  }

  /** Two requests that wait for one key, once both are through, have an activation each. */
  lemma BothMake(y: Server, p: Pending, q: Pending, hash: S.BodyHash)
    requires PendingsOk(y) && p in y.pending && q in y.pending
    requires KeyOf(p) == KeyOf(q) && p.request.requestId != q.request.requestId
    ensures var y' := Run(y, [Undisturbed(p), Undisturbed(q)], hash);
            var a, b := S.ActivationIdFor(p.request.requestId), S.ActivationIdFor(q.request.requestId);
            && a != b && MadeFor(y', KeyOf(p), a) && MadeFor(y', KeyOf(p), b)
            && Acknowledged(y', a) && Acknowledged(y', b)
  {
    IdsAreTheirRequests(p.request.requestId);
    IdsAreTheirRequests(q.request.requestId);
    var y1 := Next(y, Undisturbed(p), hash);
    FinishMakes(y, p, hash);
    NextKeepsPendings(y, Undisturbed(p), hash);
    FinishMakes(y1, q, hash);
    TwoSteps(y, Undisturbed(p), Undisturbed(q), hash);
  }

  /** A create that finishes after its key was bound to another activation makes a second one. */
  lemma LateMakesSecond(y: Server, p: Pending, hash: S.BodyHash)
    requires CoreOk(y.tables.core, y.wire, hash) && PendingsOk(y) && p in y.pending && !Unclaimed(y.tables.core, p)
    ensures !OnePerKey(Run(y, [Undisturbed(p)], hash))
  {
    var other := y.tables.core.idempotency[KeyOf(p)].activationId;
    assert BindingOk(y.tables.core, y.wire, KeyOf(p));
    assert MadeFor(y, KeyOf(p), other);
    FinishMakes(y, p, hash);
    OneStep(y, Undisturbed(p), hash);
  }

  /** However the waiting creates end, each key has at most one activation. */
  ghost predicate EndsWithOne(y: Server, hash: S.BodyHash) {
    forall steps :: OnlyFinishes(steps) ==> OnePerKey(Run(y, steps, hash))
  }

  /**
   The exact condition: from any state whose tables are in order, the creates that wait end with at
   most one activation per key, however they end, exactly when no two requests wait for one key and
   none waits for a key another request has bound.
   */
  lemma EndsWithOneIff(steps: seq<Step>, hash: S.BodyHash)
    requires Injective(hash)
    ensures PendingsOk(Run(IDLE, steps, hash))
    ensures var y := Run(IDLE, steps, hash);
            CoreOk(y.tables.core, y.wire, hash) ==> (EndsWithOne(y, hash) <==> Exclusive(y))
  {
    RunKeepsPendings(IDLE, steps, hash);
    var y := Run(IDLE, steps, hash);
    if CoreOk(y.tables.core, y.wire, hash) {
      if Exclusive(y) { ExclusiveEndsWithOne(y, hash); } else { NotExclusiveCanEndWithTwo(y, hash); }
    }
  }

  lemma ExclusiveEndsWithOne(y: Server, hash: S.BodyHash)
    requires SerialOk(y, hash) && Injective(hash)
    ensures EndsWithOne(y, hash)
  {
    forall later | OnlyFinishes(later)
      ensures OnePerKey(Run(y, later, hash))
    {
      FinishesAreSerial(y, later, hash);
      SerialRunKeeps(y, later, hash);
      CoreOkIsOnePerKey(Run(y, later, hash), hash);
    }
  }

  lemma ClaimedCanEndWithTwo(y: Server, p: Pending, hash: S.BodyHash)
    requires CoreOk(y.tables.core, y.wire, hash) && PendingsOk(y) && p in y.pending && !Unclaimed(y.tables.core, p)
    ensures !EndsWithOne(y, hash)
  {
    LateMakesSecond(y, p, hash);
    assert OnlyFinishes([Undisturbed(p)]);
  }

  lemma TogetherCanEndWithTwo(y: Server, p: Pending, q: Pending, hash: S.BodyHash)
    requires PendingsOk(y) && p in y.pending && q in y.pending
    requires KeyOf(p) == KeyOf(q) && p.request.requestId != q.request.requestId
    ensures !EndsWithOne(y, hash)
  {
    BothMake(y, p, q, hash);
    assert OnlyFinishes([Undisturbed(p), Undisturbed(q)]);
  }

  lemma NotExclusiveCanEndWithTwo(y: Server, hash: S.BodyHash)
    requires CoreOk(y.tables.core, y.wire, hash) && PendingsOk(y) && !Exclusive(y)
    ensures !EndsWithOne(y, hash)
  {
    if p :| p in y.pending && !Unclaimed(y.tables.core, p) {
      ClaimedCanEndWithTwo(y, p, hash);
    } else {
      var p, q :| p in y.pending && q in y.pending && KeyOf(p) == KeyOf(q)
                  && p.request.requestId != q.request.requestId;
      TogetherCanEndWithTwo(y, p, q, hash);
    }
  }

  // ----- A run that makes two -----

  const BODY := S.Body(Some("org"), Some("capability"), Some("binding"), Some("key"), "")
  const FIRST_NONCE := "00000000000000000000"
  const SECOND_NONCE := "11111111111111111111"
  const QUIET := S.Circumstances(false, None, None, None, None, None, true, NO_FAILURES, 0)

  function Attempting(nonce: string): Sent {
    Sent("client", BODY, None, nonce, 0)
  }

  function Arriving(requestId: string, nonce: string): S.Request {
    S.Request(S.Create(Some(BODY)), "client", "partner", requestId, nonce)
  }

  function OverlappingRun(first: string, second: string): seq<Step> {
    [Send(first, Attempting(FIRST_NONCE)), Send(second, Attempting(SECOND_NONCE)),
     Arrive(Arriving(first, FIRST_NONCE), QUIET), Arrive(Arriving(second, SECOND_NONCE), QUIET)]
    + [Undisturbed(PendingOf(Arriving(first, FIRST_NONCE), 0)),
       Undisturbed(PendingOf(Arriving(second, SECOND_NONCE), 0))]
  }

  /**
   A run that makes two: two attempts for one client and key arrive, wait together and finish. Both
   are answered with a receipt that names an activation of its own.
   */
  lemma OverlapMakesTwo(first: string, second: string, hash: S.BodyHash)
    requires first != second
    ensures var y' := Run(IDLE, OverlappingRun(first, second), hash);
            var a, b := S.ActivationIdFor(first), S.ActivationIdFor(second);
            && a != b && MadeFor(y', ("client", "key"), a) && MadeFor(y', ("client", "key"), b)
            && Acknowledged(y', a) && Acknowledged(y', b)
  {
    var run := OverlappingRun(first, second);
    var p, q := run[4].create, run[5].create;
    var y := BothWait(first, second, hash);
    BothMake(y, p, q, hash);
    RunOn(IDLE, run[..4], run[4..], hash);
    assert run == run[..4] + run[4..] && run[4..] == [Undisturbed(p), Undisturbed(q)];
  }

  lemma ArrivalWaits(y: Server, requestId: string, nonce: string, hash: S.BodyHash)
    requires y.tables == S.EMPTY && requestId in y.wire && y.wire[requestId] == Attempting(nonce)
    requires Nonces.WellFormedNonce(nonce)
    ensures Next(y, Arrive(Arriving(requestId, nonce), QUIET), hash)
            == y.(pending := y.pending + multiset{PendingOf(Arriving(requestId, nonce), 0)})
  {
    assert WhileWaiting(S.EMPTY, 0) == S.EMPTY;
  }

  lemma BothWait(first: string, second: string, hash: S.BodyHash) returns (y: Server)
    requires first != second
    ensures y == Run(IDLE, OverlappingRun(first, second)[..4], hash) && PendingsOk(y)
    ensures OverlappingRun(first, second)[4].create in y.pending && OverlappingRun(first, second)[5].create in y.pending
  {
    var run := OverlappingRun(first, second);
    var wire := map[first := Attempting(FIRST_NONCE), second := Attempting(SECOND_NONCE)];
    var y2 := Server(S.EMPTY, wire, multiset{}, {});
    TwoSteps(IDLE, run[0], run[1], hash);
    ArrivalWaits(y2, first, FIRST_NONCE, hash);
    var y3 := Next(y2, run[2], hash);
    ArrivalWaits(y3, second, SECOND_NONCE, hash);
    y := Next(y3, run[3], hash);
    TwoSteps(y2, run[2], run[3], hash);
    RunOn(IDLE, [run[0], run[1]], [run[2], run[3]], hash);
    assert run[..4] == [run[0], run[1]] + [run[2], run[3]];
    RunKeepsPendings(IDLE, run[..4], hash);
  }

  lemma {:induction false} RunOn(y: Server, steps: seq<Step>, more: seq<Step>, hash: S.BodyHash)
    ensures Run(y, steps + more, hash) == Run(Run(y, steps, hash), more, hash)
    decreases |steps|
  {
    if steps == [] {
      assert steps + more == more;
    } else {
      assert (steps + more)[1..] == steps[1..] + more;
      RunOn(Next(y, steps[0], hash), steps[1..], more, hash);
    }
  }
}
