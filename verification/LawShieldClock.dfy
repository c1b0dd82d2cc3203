/**
 The same protocol under one clock that does not run back: every time an event reads is the time at
 which it happens. What holds of all runs holds of these; what depends on the age of a request is
 said of these.
 */
module LawShieldClock {
  import opened Wrappers
  import A = ArmaTransfers
  import AS = ArmaSends
  import S = LawShieldStore
  import P = LawShieldProcessor
  import D = LawShieldDecisions
  import opened LawShieldProtocol
  import opened LawShieldTraces

  datatype Timed = Timed(system: System, clock: int)

  datatype Moment = Moment(event: Event, now: int)

  predicate MoveReads(m: AS.Move, now: int) {
    match m
    case Permit(_, _, _, _, _, at) => at == now
    case MakeReady(_, _, _, _, at) => at == now
    case StartSend(_, _, at, _) => at == now
    case SettleSend(_, _, at) => at == now
    case Decline(_, _, _, at) => at == now
    case _ => true
  }

  /** Whoever looks at the clock in this event sees `now`. */
  predicate ReadsClock(e: Event, now: int) {
    match e
    case Arma(m, _, signedAt) => MoveReads(m, now) && signedAt == now
    case Forward(_, _, at) => at == now
    case Decide(_, _, _, _, _, _, at, wallClock) => at == now && wallClock == now
    case SignReceipt(_, _) => true
  }

  function TimedNext(t: Timed, m: Moment, hash: AS.Hash): Timed {
    if m.now < t.clock || !ReadsClock(m.event, m.now) then t else Timed(Next(t.system, m.event, hash), m.now)
  }

  function TimedRun(t: Timed, moments: seq<Moment>, hash: AS.Hash): Timed
    decreases |moments|
  {
    if moments == [] then t else TimedRun(TimedNext(t, moments[0], hash), moments[1..], hash)
  }

  ghost predicate TimedReachable(t: Timed, hash: AS.Hash) {
    exists directory, clock, moments :: t == TimedRun(Timed(Initial(directory), clock), moments, hash)
  }

  lemma {:induction false} TimedRunIsRun(t: Timed, moments: seq<Moment>, hash: AS.Hash) returns (events: seq<Event>)
    ensures TimedRun(t, moments, hash).system == Run(t.system, events, hash)
    decreases |moments|
  {
    if moments == [] {
      events := [];
    } else {
      var rest := TimedRunIsRun(TimedNext(t, moments[0], hash), moments[1..], hash);
      if TimedNext(t, moments[0], hash) == t {
        events := rest;
      } else {
        events := [moments[0].event] + rest;
        assert events[0] == moments[0].event && events[1..] == rest;
      }
    }
  }

  /** Every theorem about reachable systems applies. */
  lemma TimedIsReachable(t: Timed, hash: AS.Hash)
    requires TimedReachable(t, hash)
    ensures Reachable(t.system, hash)
  {
    var directory, clock, moments :| t == TimedRun(Timed(Initial(directory), clock), moments, hash);
    var events := TimedRunIsRun(Timed(Initial(directory), clock), moments, hash);
  }

  lemma {:induction false} TimedRunOn(t: Timed, moments: seq<Moment>, more: seq<Moment>, hash: AS.Hash)
    ensures TimedRun(t, moments + more, hash) == TimedRun(TimedRun(t, moments, hash), more, hash)
    decreases |moments|
  {
    if moments == [] {
      assert moments + more == more;
    } else {
      assert (moments + more)[1..] == moments[1..] + more;
      TimedRunOn(TimedNext(t, moments[0], hash), moments[1..], more, hash);
    }
  }

  lemma StaysTimedReachable(t: Timed, later: seq<Moment>, hash: AS.Hash)
    requires TimedReachable(t, hash)
    ensures TimedReachable(TimedRun(t, later, hash), hash)
  {
    var directory, clock, moments :| t == TimedRun(Timed(Initial(directory), clock), moments, hash);
    TimedRunOn(Timed(Initial(directory), clock), moments, later, hash);
  }

  lemma OneMoment(t: Timed, m: Moment, hash: AS.Hash)
    ensures TimedRun(t, [m], hash) == TimedNext(t, m, hash)
  {
    assert [m][1..] == [];
  }

  lemma StepsOn(t: Timed, m: Moment, hash: AS.Hash)
    requires TimedReachable(t, hash)
    ensures TimedReachable(TimedNext(t, m, hash), hash)
  {
    StaysTimedReachable(t, [m], hash);
    OneMoment(t, m, hash);
  }

  // ----- What the clock adds -----

  /** Nothing was sent in the future, and a record's time of sending is that of its last send. */
  predicate SendOnClock(arma: A.State, clock: int, o: A.Outbound) {
    && o.sentAt <= clock && o.transferId in arma.transfers
    && arma.transfers[o.transferId].sentAt.Some? && o.sentAt <= arma.transfers[o.transferId].sentAt.value
  }

  ghost predicate OnClock(t: Timed) {
    && (forall o :: o in t.system.side.sends ==> SendOnClock(t.system.side.arma, t.clock, o))
    && (forall w :: w in t.system.requests ==> w.signedAt == w.outbound.sentAt)
  }

  ghost predicate Sound(t: Timed, hash: AS.Hash) {
    Ok(t.system, hash) && Traced(t.system) && OnClock(t)
  }

  lemma QuietSideOnClock(y: AS.Side, y': AS.Side, clock: int, now: int)
    requires forall o :: o in y.sends ==> SendOnClock(y.arma, clock, o)
    requires clock <= now && y'.sends == y.sends
    requires forall id :: id in y.arma.transfers ==>
               id in y'.arma.transfers && y'.arma.transfers[id].sentAt == y.arma.transfers[id].sentAt
    ensures forall o :: o in y'.sends ==> SendOnClock(y'.arma, now, o)
  {
  }

  lemma SendingSideOnClock(y: AS.Side, y': AS.Side, id: string, clock: int, now: int)
    requires forall o :: o in y.sends ==> SendOnClock(y.arma, clock, o)
    requires clock <= now && SendsOwn(y, y', id) && y'.sends[|y.sends|].sentAt == now
    ensures forall o :: o in y'.sends ==> SendOnClock(y'.arma, now, o)
  {
    assert y'.sends == y.sends + [y'.sends[|y.sends|]];
  }

  lemma DraftKeepsTimes(y: AS.Side, m: AS.Move, hash: AS.Hash)
    requires m.Draft?
    ensures var y' := AS.Moved(y, m, hash);
            && y'.sends == y.sends
            && (forall id :: id in y.arma.transfers ==>
                  id in y'.arma.transfers && y'.arma.transfers[id] == y.arma.transfers[id])
  {
  }

  lemma MoveOnClock(y: AS.Side, m: AS.Move, hash: AS.Hash, clock: int, now: int)
    requires AS.Ok(y, hash) && Marked(y) && clock <= now && MoveReads(m, now)
    requires forall o :: o in y.sends ==> SendOnClock(y.arma, clock, o)
    ensures forall o :: o in AS.Moved(y, m, hash).sends ==> SendOnClock(AS.Moved(y, m, hash).arma, now, o)
  {
    var y' := AS.Moved(y, m, hash);
    if m.Draft? { DraftKeepsTimes(y, m, hash); QuietSideOnClock(y, y', clock, now); }
    else if !m.StartSend? { OthersKeepHashes(y, m, hash); QuietSideOnClock(y, y', clock, now); }
    else {
      SendIsOwn(y, m, hash);
      if y' == y { QuietSideOnClock(y, y', clock, now); } else { SendingSideOnClock(y, y', m.id, clock, now); }
    }
  }

  lemma ArmaOnClock(t: Timed, e: Event, now: int, hash: AS.Hash)
    requires Sound(t, hash) && e.Arma? && t.clock <= now && ReadsClock(e, now)
    ensures OnClock(Timed(Next(t.system, e, hash), now))
  {
    if Enabled(t.system, e) {
      var y, y' := t.system.side, AS.Moved(t.system.side, e.move, hash);
      MoveMarks(y, e.move, hash);
      MoveOnClock(y, e.move, hash, t.clock, now);
      RequestsOnClock(t.system.requests, y, y', e.nonce, now);
    }
  }

  lemma RequestsOnClock(requests: set<Wire>, y: AS.Side, y': AS.Side, nonce: string, now: int)
    requires forall w :: w in requests ==> w.signedAt == w.outbound.sentAt
    requires y'.sends == y.sends || (exists id :: SendsOwn(y, y', id) && y'.sends[|y.sends|].sentAt == now)
    ensures forall w :: w in requests + NewRequests(y.sends, y'.sends, nonce, now) ==> w.signedAt == w.outbound.sentAt
  {
  }

  lemma OtherOnClock(t: Timed, e: Event, now: int, hash: AS.Hash)
    requires OnClock(t) && !e.Arma? && t.clock <= now
    ensures OnClock(Timed(Next(t.system, e, hash), now))
  {
    var y' := Next(t.system, e, hash);
    assert y'.side == t.system.side && y'.requests == t.system.requests;
  }

  lemma TimedNextKeeps(t: Timed, m: Moment, hash: AS.Hash)
    requires Sound(t, hash)
    ensures Sound(TimedNext(t, m, hash), hash)
  {
    if m.now >= t.clock && ReadsClock(m.event, m.now) {
      NextKeeps(t.system, m.event, hash);
      NextTraces(t.system, m.event, hash);
      if m.event.Arma? { ArmaOnClock(t, m.event, m.now, hash); } else { OtherOnClock(t, m.event, m.now, hash); }
    }
  }

  lemma {:induction false} TimedRunKeeps(t: Timed, moments: seq<Moment>, hash: AS.Hash)
    requires Sound(t, hash)
    ensures Sound(TimedRun(t, moments, hash), hash)
    decreases |moments|
  {
    if moments != [] {
      TimedNextKeeps(t, moments[0], hash);
      TimedRunKeeps(TimedNext(t, moments[0], hash), moments[1..], hash);
    }
  }

  lemma TimedReachableIsSound(t: Timed, hash: AS.Hash)
    requires TimedReachable(t, hash)
    ensures Sound(t, hash)
  {
    var directory, clock, moments :| t == TimedRun(Timed(Initial(directory), clock), moments, hash);
    TimedRunKeeps(Timed(Initial(directory), clock), moments, hash);
  }
}
