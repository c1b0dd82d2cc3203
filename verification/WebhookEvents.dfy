/**
 Receiving signed webhook events (shared/webhooks/events.ts).

 A presentation is whatever arrives: header values (empty when missing), the hash of the raw body
 and what the body parses to. The MAC is a parameter.
 */
module WebhookEvents {
  import opened Wrappers
  import opened Nonces

  const MAX_CLOCK_SKEW_MS := 5 * 60 * 1000
  const NONCE_WINDOW_MS := 2 * MAX_CLOCK_SKEW_MS

  /** `content` stands for the fields the receiver only passes on. */
  datatype Envelope = Envelope(eventId: string, eventType: string, stream: string, sequence: nat,
                               at: int, content: string)

  /** What a signature covers. The nonce is not part of it. */
  datatype Canonical = Canonical(eventId: string, eventType: string, stream: string, sequence: nat,
                                 at: int, bodyHash: string)

  type Mac = Canonical -> string

  datatype Body = EmptyBody | NotJson | Refused(code: string) | Parsed(envelope: Envelope)

  datatype Presentation = Presentation(eventId: string, signature: string, timestamp: string,
                                       at: Option<int>, nonce: string, bodySha256: string,
                                       schemaVersion: string, bodyHash: string, body: Body)

  function CanonicalOf(e: Envelope, bodyHash: string): Canonical {
    Canonical(e.eventId, e.eventType, e.stream, e.sequence, e.at, bodyHash)
  }

  predicate HeadersPresent(p: Presentation) {
    p.eventId != "" && p.signature != "" && p.timestamp != "" && p.nonce != "" && p.bodySha256 != ""
    && p.schemaVersion != ""
  }

  function Distance(a: int, b: int): int {
    if a < b then b - a else a - b
  }

  /** Everything that is checked before the guard is asked. */
  function Authenticated(p: Presentation, secretPresent: bool, mac: Mac, now: int): Result<Envelope, string> {
    if !HeadersPresent(p) then Failure("WEBHOOK_MISSING_HEADERS")
    else if p.schemaVersion != "shared-webhook-v1" then Failure("WEBHOOK_EVENT_MALFORMED")
    else if p.at.None? || Distance(now, p.at.value) > MAX_CLOCK_SKEW_MS then Failure("WEBHOOK_TIMESTAMP_INVALID")
    else if !secretPresent then Failure("WEBHOOK_SIGNATURE_INVALID")
    else if p.body.EmptyBody? then Failure("WEBHOOK_BODY_MALFORMED")
    else if p.bodyHash != p.bodySha256 then Failure("WEBHOOK_SIGNATURE_INVALID")
    else
      match p.body
      case Refused(code) => Failure(code)
      case Parsed(e) =>
        if e.eventId != p.eventId || Some(e.at) != p.at then Failure("WEBHOOK_EVENT_MALFORMED")
        else if mac(CanonicalOf(e, p.bodyHash)) != p.signature then Failure("WEBHOOK_SIGNATURE_INVALID")
        else Success(e)
      case _ => Failure("WEBHOOK_BODY_MALFORMED")
  }

  // ----- The guard -----

  datatype Memory = Memory(nonces: map<string, int>, eventIds: set<string>, cursor: map<string, nat>)

  const BLANK := Memory(map[], {}, map[])

  function Pruned(m: Memory, now: int): Memory {
    m.(nonces := Remembered(m.nonces, NONCE_WINDOW_MS, now))
  }

  /** Whether `sequence` comes next on the stream; a stream may start anywhere. */
  predicate InOrder(m: Memory, stream: string, sequence: nat) {
    stream in m.cursor ==> sequence == m.cursor[stream] + 1
  }

  predicate Admits(m: Memory, e: Envelope, nonce: string, now: int) {
    && WellFormedNonce(nonce)
    && nonce !in Remembered(m.nonces, NONCE_WINDOW_MS, now)
    && e.eventId !in m.eventIds
    && InOrder(m, e.stream, e.sequence)
  }

  function Consumed(m: Memory, e: Envelope, nonce: string, now: int): Memory {
    Memory(Remembered(m.nonces, NONCE_WINDOW_MS, now)[nonce := now], m.eventIds + {e.eventId},
           m.cursor[e.stream := e.sequence])
  }

  /** The guard's memory after one check. */
  function Checked(m: Memory, e: Envelope, nonce: string, now: int): Memory {
    if Admits(m, e, nonce, now) then Consumed(m, e, nonce, now)
    else if WellFormedNonce(nonce) then Pruned(m, now)
    else m
  }

  class WebhookEventGuard {
    var seenNonces: map<string, int>
    var seenEventIds: set<string>
    var streamSequence: map<string, nat>

    function Recall(): Memory
      reads this
    {
      Memory(seenNonces, seenEventIds, streamSequence)
    }

    constructor ()
      ensures Recall() == BLANK
    {
      seenNonces, seenEventIds, streamSequence := map[], {}, map[];
    }

    /** Forgets the nonces outside the replay window and counts the others. */
    method Prune(now: int) returns (remaining: nat)
      modifies this`seenNonces
      ensures seenNonces == Remembered(old(seenNonces), NONCE_WINDOW_MS, now)
      ensures remaining == |seenNonces|
    {
      remaining := 0;
      var pending := seenNonces.Keys;
      while pending != {}
        invariant pending <= seenNonces.Keys <= old(seenNonces).Keys
        invariant remaining + |pending| == |seenNonces|
        invariant forall n :: n in old(seenNonces) && n !in seenNonces ==> now - old(seenNonces)[n] > NONCE_WINDOW_MS
        invariant forall n :: n in seenNonces ==> seenNonces[n] == old(seenNonces)[n]
        invariant forall n :: n in seenNonces && n !in pending ==> now - seenNonces[n] <= NONCE_WINDOW_MS
        decreases |pending|
      {
        var n :| n in pending;
        if now - seenNonces[n] > NONCE_WINDOW_MS {
          ghost var before := seenNonces;
          seenNonces := seenNonces - {n};
          assert seenNonces.Keys == before.Keys - {n};
          assert |seenNonces| == |seenNonces.Keys| == |before.Keys| - 1;
        } else {
          remaining := remaining + 1;
        }
        pending := pending - {n};
      }
    }

    /** Checks and consumes; the code says why an event was refused. */
    method Check(e: Envelope, nonce: string, now: int) returns (refusal: Option<string>)
      modifies this
      ensures Recall() == Checked(old(Recall()), e, nonce, now)
      ensures refusal.None? <==> Admits(old(Recall()), e, nonce, now)
      ensures refusal == Some("WEBHOOK_ORDERING_GAP") ==>
                && e.eventId !in old(seenEventIds) && e.stream in old(streamSequence)
                && e.sequence != old(streamSequence)[e.stream] + 1
      ensures refusal == Some("WEBHOOK_NONCE_REPLAYED") <==>
                WellFormedNonce(nonce)
                && (nonce in Remembered(old(seenNonces), NONCE_WINDOW_MS, now) || e.eventId in old(seenEventIds))
      ensures refusal == Some("WEBHOOK_EVENT_MALFORMED") <==> !WellFormedNonce(nonce)
    {
      if !WellFormedNonce(nonce) { return Some("WEBHOOK_EVENT_MALFORMED"); }
      var _ := Prune(now);
      if nonce in seenNonces { return Some("WEBHOOK_NONCE_REPLAYED"); }
      if e.eventId in seenEventIds { return Some("WEBHOOK_NONCE_REPLAYED"); }
      if e.stream in streamSequence && e.sequence != streamSequence[e.stream] + 1 {
        return Some("WEBHOOK_ORDERING_GAP");
      }
      seenNonces := seenNonces[nonce := now];
      seenEventIds := seenEventIds + {e.eventId};
      streamSequence := streamSequence[e.stream := e.sequence];
      return None;
    }
  }

  // ----- What is accepted, told by what arrived -----

  /** What the sender signed, as it was signed: every header there and the body unchanged. */
  predicate Faithful(p: Presentation, e: Envelope, mac: Mac) {
    && p.eventId != "" && p.signature != "" && p.timestamp != "" && p.nonce != "" && p.bodySha256 != ""
    && p.schemaVersion == "shared-webhook-v1" && p.body == Parsed(e) && p.bodyHash == p.bodySha256
    && p.eventId == e.eventId && p.at == Some(e.at)
    && p.signature == mac(Canonical(e.eventId, e.eventType, e.stream, e.sequence, e.at, p.bodyHash))
  }

  /** Within five minutes of the time it was signed for. */
  predicate InTime(at: int, now: int) {
    at - 300_000 <= now <= at + 300_000
  }

  /** Nothing the guard remembers speaks against it. */
  predicate Novel(m: Memory, e: Envelope, nonce: string, now: int) {
    && WellFormedNonce(nonce) && (nonce in m.nonces ==> m.nonces[nonce] + 600_000 < now)
    && e.eventId !in m.eventIds && (e.stream in m.cursor ==> e.sequence == m.cursor[e.stream] + 1)
  }

  /** Authentication lets through exactly the faithful presentations that are in time. */
  lemma AuthenticatedIff(p: Presentation, secretPresent: bool, mac: Mac, now: int, e: Envelope)
    ensures Authenticated(p, secretPresent, mac, now) == Success(e)
            <==> secretPresent && Faithful(p, e, mac) && InTime(e.at, now)
  {
  }

  lemma NovelIff(m: Memory, e: Envelope, nonce: string, now: int)
    ensures Admits(m, e, nonce, now) <==> Novel(m, e, nonce, now)
  {
  }

  predicate HeaderMissing(p: Presentation) {
    || p.eventId == "" || p.signature == "" || p.timestamp == "" || p.nonce == "" || p.bodySha256 == ""
    || p.schemaVersion == ""
  }

  /** The header's time is one the receiver takes. */
  predicate Timely(p: Presentation, now: int) {
    p.at.Some? && InTime(p.at.value, now)
  }

  /** Why authentication turns a presentation away, in the order of its checks. */
  lemma RefusalCodes(p: Presentation, secretPresent: bool, mac: Mac, now: int)
    requires Authenticated(p, secretPresent, mac, now).Failure?
    ensures var code := Authenticated(p, secretPresent, mac, now).error;
            var read := !HeaderMissing(p) && p.schemaVersion == "shared-webhook-v1" && Timely(p, now);
            && (HeaderMissing(p) ==> code == "WEBHOOK_MISSING_HEADERS")
            && (!HeaderMissing(p) && p.schemaVersion != "shared-webhook-v1" ==> code == "WEBHOOK_EVENT_MALFORMED")
            && (!HeaderMissing(p) && p.schemaVersion == "shared-webhook-v1" && !Timely(p, now) ==>
                  code == "WEBHOOK_TIMESTAMP_INVALID")
            && (read && !secretPresent ==> code == "WEBHOOK_SIGNATURE_INVALID")
            && (read && secretPresent && p.body.EmptyBody? ==> code == "WEBHOOK_BODY_MALFORMED")
            && (read && secretPresent && !p.body.EmptyBody? && p.bodyHash != p.bodySha256 ==>
                  code == "WEBHOOK_SIGNATURE_INVALID")
            && (read && secretPresent && p.bodyHash == p.bodySha256 ==>
                  && (p.body.NotJson? ==> code == "WEBHOOK_BODY_MALFORMED")
                  && (p.body.Refused? ==> code == p.body.code)
                  && (p.body.Parsed? ==>
                        code == if p.body.envelope.eventId == p.eventId && Some(p.body.envelope.at) == p.at
                                then "WEBHOOK_SIGNATURE_INVALID" else "WEBHOOK_EVENT_MALFORMED"))
  {
  }

  /** Authenticates a presentation, then puts it to the guard. */
  method VerifyWebhook(guard: WebhookEventGuard, p: Presentation, secretPresent: bool, mac: Mac, now: int)
    returns (r: Result<Envelope, string>)
    modifies guard
    ensures match Authenticated(p, secretPresent, mac, now)
            case Failure(code) => r == Failure(code) && guard.Recall() == old(guard.Recall())
            case Success(e) =>
              && guard.Recall() == Checked(old(guard.Recall()), e, p.nonce, now)
              && (if Admits(old(guard.Recall()), e, p.nonce, now) then r == Success(e) else r.Failure?)
    ensures r.Success? <==>
              && p.body.Parsed? && secretPresent && Faithful(p, p.body.envelope, mac) && InTime(p.body.envelope.at, now)
              && Novel(old(guard.Recall()), p.body.envelope, p.nonce, now)
    ensures r.Success? ==>
              && r.value == p.body.envelope && guard.seenEventIds == old(guard.seenEventIds) + {r.value.eventId}
              && guard.streamSequence == old(guard.streamSequence)[r.value.stream := r.value.sequence]
              && p.nonce in guard.seenNonces && guard.seenNonces[p.nonce] == now
  {
    if p.body.Parsed? {
      AuthenticatedIff(p, secretPresent, mac, now, p.body.envelope);
      NovelIff(guard.Recall(), p.body.envelope, p.nonce, now);
    }
    var authenticated := Authenticated(p, secretPresent, mac, now);
    if authenticated.Failure? { return authenticated; }
    var refusal := guard.Check(authenticated.value, p.nonce, now);
    if refusal.Some? { return Failure(refusal.value); }
    r := authenticated;
  }
}
