/**
 Exactly once, in order: what a receiver accepts over any run of presentations.

 The network may drop, repeat, reorder and re-sign with new nonces. It cannot make a signature:
 whatever carries one that matches is an event the sender signed, with its own body.
 */
module WebhookOrdering {
  import opened Wrappers
  import opened Nonces
  import opened WebhookEvents

  /** The sender's events by stream and sequence number. */
  type Log = map<(string, nat), Envelope>

  /** One arrival, with the receiver's clock reading. */
  datatype Arrival = Arrival(presentation: Presentation, secretPresent: bool, now: int)

  datatype Receiver = Receiver(memory: Memory, accepted: seq<Envelope>, nonces: seq<(string, int)>)

  function Accepts(m: Memory, mac: Mac, a: Arrival): Option<Envelope> {
    match Authenticated(a.presentation, a.secretPresent, mac, a.now)
    case Failure(_) => None
    case Success(e) => if Admits(m, e, a.presentation.nonce, a.now) then Some(e) else None
  }

  function Remember(m: Memory, mac: Mac, a: Arrival): Memory {
    match Authenticated(a.presentation, a.secretPresent, mac, a.now)
    case Failure(_) => m
    case Success(e) => Checked(m, e, a.presentation.nonce, a.now)
  }

  function Receive(r: Receiver, mac: Mac, a: Arrival): Receiver {
    match Accepts(r.memory, mac, a)
    case None => r.(memory := Remember(r.memory, mac, a))
    case Some(e) => Receiver(Remember(r.memory, mac, a), r.accepted + [e],
                             r.nonces + [(a.presentation.nonce, a.now)])
  }

  function Run(r: Receiver, mac: Mac, arrivals: seq<Arrival>): Receiver
    decreases |arrivals|
  {
    if arrivals == [] then r else Run(Receive(r, mac, arrivals[0]), mac, arrivals[1..])
  }

  const START := Receiver(BLANK, [], [])

  /** The signature, if it matches, is the sender's own on this very event. */
  predicate Genuine(log: Log, mac: Mac, a: Arrival) {
    a.presentation.body.Parsed? ==>
      var e := a.presentation.body.envelope;
      mac(CanonicalOf(e, a.presentation.bodyHash)) == a.presentation.signature ==>
        (e.stream, e.sequence) in log && log[(e.stream, e.sequence)] == e
  }

  // ----- What every run keeps -----

  /** The accepted events of one stream, in order of acceptance. */
  function OnStream(events: seq<Envelope>, stream: string): seq<Envelope> {
    if events == [] then []
    else
      var last := events[|events| - 1];
      OnStream(events[..|events| - 1], stream) + (if last.stream == stream then [last] else [])
  }

  /** A contiguous stretch of what the sender put on this stream, in its order. */
  ghost predicate IsSlice(log: Log, stream: string, events: seq<Envelope>) {
    forall i :: 0 <= i < |events| ==>
      && (stream, events[0].sequence + i) in log
      && log[(stream, events[0].sequence + i)] == events[i]
      && events[i].stream == stream && events[i].sequence == events[0].sequence + i
  }

  ghost predicate StreamOk(r: Receiver, log: Log, stream: string) {
    var events := OnStream(r.accepted, stream);
    && IsSlice(log, stream, events)
    && (stream in r.memory.cursor <==> events != [])
    && (events != [] ==> r.memory.cursor[stream] == events[|events| - 1].sequence)
  }

  ghost predicate Ok(r: Receiver, log: Log) {
    && (forall stream :: StreamOk(r, log, stream))
    && (forall e :: e in r.accepted ==> e.eventId in r.memory.eventIds)
    && (forall i, j :: 0 <= i < j < |r.accepted| ==> r.accepted[i].eventId != r.accepted[j].eventId)
  }

  lemma OneMoreOnStream(events: seq<Envelope>, e: Envelope, stream: string)
    ensures OnStream(events + [e], stream) == OnStream(events, stream) + (if e.stream == stream then [e] else [])
  {
  }

  /** A refused presentation changes neither the event ids nor any stream's cursor. */
  lemma RefusalForgetsNothing(m: Memory, mac: Mac, a: Arrival)
    ensures Accepts(m, mac, a).None? ==>
              Remember(m, mac, a).eventIds == m.eventIds && Remember(m, mac, a).cursor == m.cursor
    ensures Accepts(m, mac, a).Some? ==>
              var e := Accepts(m, mac, a).value;
              && e.eventId !in m.eventIds && Remember(m, mac, a).eventIds == m.eventIds + {e.eventId}
              && InOrder(m, e.stream, e.sequence) && Remember(m, mac, a).cursor == m.cursor[e.stream := e.sequence]
  {
  }

  lemma AcceptanceExtends(r: Receiver, log: Log, e: Envelope, m': Memory, nonces: seq<(string, int)>, stream: string)
    requires StreamOk(r, log, stream)
    requires (e.stream, e.sequence) in log && log[(e.stream, e.sequence)] == e
    requires InOrder(r.memory, e.stream, e.sequence) && m'.cursor == r.memory.cursor[e.stream := e.sequence]
    ensures StreamOk(Receiver(m', r.accepted + [e], nonces), log, stream)
  {
    OneMoreOnStream(r.accepted, e, stream);
    var before := OnStream(r.accepted, stream);
    if e.stream == stream {
      assert before != [] ==> e.sequence == before[|before| - 1].sequence + 1;
      SliceGrows(log, stream, before, e);
    } else {
      assert OnStream(r.accepted + [e], stream) == before;
    }
  }

  lemma SliceGrows(log: Log, stream: string, events: seq<Envelope>, e: Envelope)
    requires IsSlice(log, stream, events) && e.stream == stream
    requires (stream, e.sequence) in log && log[(stream, e.sequence)] == e
    requires events != [] ==> e.sequence == events[|events| - 1].sequence + 1
    ensures IsSlice(log, stream, events + [e])
  {
  }

  lemma ReceiveKeeps(r: Receiver, log: Log, mac: Mac, a: Arrival)
    requires Ok(r, log) && Genuine(log, mac, a)
    ensures Ok(Receive(r, mac, a), log)
  {
    var r' := Receive(r, mac, a);
    RefusalForgetsNothing(r.memory, mac, a);
    match Accepts(r.memory, mac, a) {
      case None =>
        forall stream ensures StreamOk(r', log, stream) { assert StreamOk(r, log, stream); }
      case Some(e) =>
        forall stream ensures StreamOk(r', log, stream) {
          AcceptanceExtends(r, log, e, r'.memory, r'.nonces, stream);
        }
    }
  }

  lemma {:induction false} RunKeeps(r: Receiver, log: Log, mac: Mac, arrivals: seq<Arrival>)
    requires Ok(r, log) && forall a :: a in arrivals ==> Genuine(log, mac, a)
    ensures Ok(Run(r, mac, arrivals), log)
    decreases |arrivals|
  {
    if arrivals != [] {
      ReceiveKeeps(r, log, mac, arrivals[0]);
      RunKeeps(Receive(r, mac, arrivals[0]), log, mac, arrivals[1..]);
    }
  }

  /**
   Whatever arrives, however often and in whatever order, the events accepted on a stream are a
   contiguous slice of the sender's, in the sender's order, and no event id is accepted twice.
   */
  lemma ExactlyOnceInOrder(log: Log, mac: Mac, arrivals: seq<Arrival>, stream: string)
    requires forall a :: a in arrivals ==> Genuine(log, mac, a)
    ensures var accepted := Run(START, mac, arrivals).accepted;
            && IsSlice(log, stream, OnStream(accepted, stream))
            && (forall i, j :: 0 <= i < j < |accepted| ==> accepted[i].eventId != accepted[j].eventId)
  {
    RunKeeps(START, log, mac, arrivals);
    assert StreamOk(Run(START, mac, arrivals), log, stream);
  }

  // ----- Nonces -----

  predicate Monotone(arrivals: seq<Arrival>) {
    forall i, j :: 0 <= i < j < |arrivals| ==> arrivals[i].now <= arrivals[j].now
  }

  /** Every accepted nonce is remembered until its window is over. */
  ghost predicate NoncesKept(r: Receiver, now: int) {
    && (forall i :: 0 <= i < |r.nonces| && now - r.nonces[i].1 <= NONCE_WINDOW_MS ==>
          r.nonces[i].0 in r.memory.nonces && r.memory.nonces[r.nonces[i].0] >= r.nonces[i].1)
    && (forall i, j :: 0 <= i < j < |r.nonces| && r.nonces[i].0 == r.nonces[j].0 ==>
          r.nonces[j].1 - r.nonces[i].1 > NONCE_WINDOW_MS)
    && (forall i :: 0 <= i < |r.nonces| ==> r.nonces[i].1 <= now)
  }

  lemma {:induction false} RunKeepsNonces(r: Receiver, mac: Mac, arrivals: seq<Arrival>, now: int) returns (later: int)
    requires NoncesKept(r, now) && Monotone(arrivals)
    requires arrivals != [] ==> now <= arrivals[0].now
    ensures NoncesKept(Run(r, mac, arrivals), later)
    decreases |arrivals|
  {
    later := now;
    if arrivals != [] {
      var a := arrivals[0];
      assert NoncesKept(Receive(r, mac, a), a.now);
      later := RunKeepsNonces(Receive(r, mac, a), mac, arrivals[1..], a.now);
    }
  }

  /** With a clock that never runs back, a nonce is accepted again only after its window. */
  lemma NonceIsBurnt(mac: Mac, arrivals: seq<Arrival>)
    requires Monotone(arrivals)
    ensures var used := Run(START, mac, arrivals).nonces;
            forall i, j :: 0 <= i < j < |used| && used[i].0 == used[j].0 ==>
              used[j].1 - used[i].1 > NONCE_WINDOW_MS
  {
    if arrivals != [] { var _ := RunKeepsNonces(START, mac, arrivals, arrivals[0].now); }
  }

  /** Only acceptance burns a nonce: one not remembered yet is remembered after exactly an acceptance. */
  lemma NonceIsBurntIffAccepted(m: Memory, mac: Mac, a: Arrival)
    requires a.presentation.nonce !in Remembered(m.nonces, NONCE_WINDOW_MS, a.now)
    ensures a.presentation.nonce in Remembered(Remember(m, mac, a).nonces, NONCE_WINDOW_MS, a.now)
            <==> Accepts(m, mac, a).Some?
  {
  }

  /** The sender's `sequence`-th event, signed, under this nonce, at time 0. */
  function Numbered(mac: Mac, eventId: string, sequence: nat, nonce: string): Arrival {
    var e := Envelope(eventId, "type", "stream", sequence, 0, "");
    Arrival(Presentation(eventId, mac(CanonicalOf(e, "hash")), "0", Some(0), nonce, "hash", "shared-webhook-v1", "hash",
                         Parsed(e)), true, 0)
  }

  lemma NumberedIsAuthentic(mac: Mac, eventId: string, sequence: nat, nonce: string)
    requires eventId != "" && nonce != "" && forall c :: mac(c) != ""
    ensures var a := Numbered(mac, eventId, sequence, nonce);
            Authenticated(a.presentation, a.secretPresent, mac, a.now) == Success(a.presentation.body.envelope)
  {
  }

  /**
   A used nonce that is not burnt: after the event numbered 1, the one numbered 3 is refused as out
   of order, and the one numbered 2 is accepted under the same nonce at the same time.
   */
  lemma RefusedNonceIsTakenAgain(mac: Mac, other: string, nonce: string)
    requires WellFormedNonce(other) && WellFormedNonce(nonce) && other != nonce && forall c :: mac(c) != ""
    ensures var first := Numbered(mac, "e1", 1, other);
            var third, second := Numbered(mac, "e3", 3, nonce), Numbered(mac, "e2", 2, nonce);
            var r := Run(START, mac, [first]);
            && Accepts(r.memory, mac, third).None?
            && Run(START, mac, [first, third, second]).accepted
               == [first.presentation.body.envelope, second.presentation.body.envelope]
  {
    var first := Numbered(mac, "e1", 1, other);
    var third, second := Numbered(mac, "e3", 3, nonce), Numbered(mac, "e2", 2, nonce);
    NumberedIsAuthentic(mac, "e1", 1, other);
    NumberedIsAuthentic(mac, "e3", 3, nonce);
    NumberedIsAuthentic(mac, "e2", 2, nonce);
    var a1 := Receive(START, mac, first);
    var a3 := Receive(a1, mac, third);
    var a2 := Receive(a3, mac, second);
    assert [first][1..] == [] && Run(START, mac, [first]) == a1;
    assert [first, third, second][1..] == [third, second] && [third, second][1..] == [second] && [second][1..] == [];
    assert Run(a3, mac, [second]) == a2;
    assert Run(a1, mac, [third, second]) == a2;
  }
}
