/**
 The activation protocol under one clock that does not run back: requests are signed, and served, at
 the time they say. What holds of all runs holds of these.
 */
module ActivationClock {
  import S = PartnerServer
  import opened ActivationProtocol

  datatype Timed = Timed(system: System, clock: int)

  datatype Moment = Moment(event: Event, now: int)

  /** Whoever looks at the clock in this event sees `now`. */
  predicate ReadsClock(e: Event, now: int) {
    match e
    case Local(_, _) => true
    case Emit(_, _, _, _, timestamp) => timestamp == now
    case Foreign(_, _, _, _, timestamp) => timestamp == now
    case Serve(_, c) => c.now == now
  }

  function TimedNext(t: Timed, m: Moment, hash: S.BodyHash): Timed {
    if m.now < t.clock || !ReadsClock(m.event, m.now) then t else Timed(Next(t.system, m.event, hash), m.now)
  }

  function TimedRun(t: Timed, moments: seq<Moment>, hash: S.BodyHash): Timed
    decreases |moments|
  {
    if moments == [] then t else TimedRun(TimedNext(t, moments[0], hash), moments[1..], hash)
  }

  ghost predicate TimedReachable(t: Timed, hash: S.BodyHash) {
    exists clock, moments :: t == TimedRun(Timed(START, clock), moments, hash)
  }

  lemma {:induction false} TimedRunOn(t: Timed, moments: seq<Moment>, more: seq<Moment>, hash: S.BodyHash)
    ensures TimedRun(t, moments + more, hash) == TimedRun(TimedRun(t, moments, hash), more, hash)
    decreases |moments|
  {
    if moments == [] {
      assert moments + more == more;
    } else {
      assert (moments + more)[1..] == moments[1..] + more;
      TimedRunOn(TimedNext(t, moments[0], hash), moments[1..], more, hash);
    }
  }

  lemma OneMoment(t: Timed, m: Moment, hash: S.BodyHash)
    ensures TimedRun(t, [m], hash) == TimedNext(t, m, hash)
  {
    assert [m][1..] == [];
  }

  lemma StepsOn(t: Timed, m: Moment, hash: S.BodyHash)
    requires TimedReachable(t, hash)
    ensures TimedReachable(TimedNext(t, m, hash), hash)
  {
    var clock, moments :| t == TimedRun(Timed(START, clock), moments, hash);
    TimedRunOn(Timed(START, clock), moments, [m], hash);
    OneMoment(t, m, hash);
  }

  /** Nothing was signed in the future. */
  predicate OnClock(t: Timed) {
    forall q :: q in t.system.wire ==> t.system.wire[q].timestamp <= t.clock
  }

  ghost predicate Sound(t: Timed, hash: S.BodyHash) {
    Ok(t.system, hash) && OnClock(t) && Injective(hash)
  }

  /** A request, once on the wire, stays as it is. */
  lemma WireStays(y: System, e: Event, hash: S.BodyHash)
    ensures forall q :: q in y.wire ==> q in Next(y, e, hash).wire && Next(y, e, hash).wire[q] == y.wire[q]
    ensures e.Local? || e.Serve? ==> Next(y, e, hash).wire == y.wire
  {
  }

  lemma TimedNextKeeps(t: Timed, m: Moment, hash: S.BodyHash)
    requires Sound(t, hash)
    ensures Sound(TimedNext(t, m, hash), hash)
  {
    if m.now >= t.clock && ReadsClock(m.event, m.now) {
      NextKeeps(t.system, m.event, hash);
      if m.event.Local? || m.event.Serve? { WireStays(t.system, m.event, hash); }
    }
  }

  lemma {:induction false} TimedRunKeeps(t: Timed, moments: seq<Moment>, hash: S.BodyHash)
    requires Sound(t, hash)
    ensures Sound(TimedRun(t, moments, hash), hash)
    decreases |moments|
  {
    if moments != [] {
      TimedNextKeeps(t, moments[0], hash);
      TimedRunKeeps(TimedNext(t, moments[0], hash), moments[1..], hash);
    }
  }

  lemma TimedReachableIsSound(t: Timed, hash: S.BodyHash)
    requires TimedReachable(t, hash) && Injective(hash)
    ensures Sound(t, hash)
  {
    var clock, moments :| t == TimedRun(Timed(START, clock), moments, hash);
    TimedRunKeeps(Timed(START, clock), moments, hash);
  }
}
