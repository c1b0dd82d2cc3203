/**
 Sending webhook events with bounded retries (shared/webhooks/delivery.ts, shared/sdk/retries.ts).

 What the transport reports is a parameter: one result for each attempt of a call.
 */
module WebhookDelivery {
  import opened Wrappers

  const RETRY_SCHEDULE_MS: seq<int> := [1_000, 5_000, 30_000, 120_000, 600_000]
  const MAX_RETRY_ATTEMPTS: nat := |RETRY_SCHEDULE_MS|

  /** One attempt: the transport threw, or reported nothing, or reported a result. */
  datatype TransportResult =
    | Threw
    | NoResult
    | Reported(ok: bool, code: Option<string>, ambiguous: bool)

  /** The results in store for a call: attempt k, counted from 1, gets `answers(k)`. */
  type Answers = nat -> TransportResult

  predicate Acknowledged(r: TransportResult) {
    r.Reported? && r.ok
  }

  function CodeOf(r: TransportResult): string {
    if r.Reported? && r.code.Some? then r.code.value else "TRANSPORT_ERROR"
  }

  predicate CleanCode(code: string) {
    code == "TRANSPORT_ERROR" || code == "DOWNSTREAM_UNAVAILABLE" || code == "UNAVAILABLE"
  }

  predicate AmbiguousCode(code: string) {
    code == "CIRCUIT_OPEN" || code == "WEBHOOK_DELIVERY_FAILED" || code == "PERSISTENCE_FAILED"
    || code == "RECEIPT_VERIFICATION_FAILED"
  }

  /** Sent, and nobody knows what became of it. */
  predicate InDoubt(r: TransportResult) {
    !Acknowledged(r) && !r.Threw? && ((r.Reported? && r.ambiguous) || AmbiguousCode(CodeOf(r)))
  }

  /** Certainly not delivered: the only kind of failure that is tried again. */
  predicate CleanFailure(r: TransportResult) {
    !Acknowledged(r) && !r.Threw? && !InDoubt(r) && CleanCode(CodeOf(r))
  }

  function ComputeBackoff(retryCount: nat): Option<int> {
    if retryCount >= MAX_RETRY_ATTEMPTS then None else Some(RETRY_SCHEDULE_MS[retryCount])
  }

  datatype Outcome = Delivered | DeliveredDuplicate | RetryExhausted | DeadLetteredAmbiguous | EndpointInvalid

  datatype AttemptOutcome = Succeeded | FailedAttempt | AmbiguousAttempt

  datatype AttemptRecord = AttemptRecord(attempt: nat, outcome: AttemptOutcome, reasonCode: Option<string>)

  function RecordOf(k: nat, r: TransportResult): AttemptRecord {
    if Acknowledged(r) then AttemptRecord(k, Succeeded, None)
    else if InDoubt(r) then AttemptRecord(k, AmbiguousAttempt, Some(CodeOf(r)))
    else AttemptRecord(k, FailedAttempt, Some(CodeOf(r)))
  }

  datatype Event = Event(eventId: string, stream: string, partnerId: string)

  datatype DeadLetter = DeadLetter(event: Event, exhausted: bool, attempts: nat)

  /** A finished call, or the error it threw. */
  datatype Result =
    | Finished(outcome: Outcome, attempts: seq<AttemptRecord>, deadLettered: bool)
    | Thrown(code: string)

  /** What the service remembers: events acknowledged (after how many attempts), and its failures. */
  datatype Ledger = Ledger(delivered: map<string, nat>, deadLetters: seq<DeadLetter>)

  const EMPTY := Ledger(map[], [])

  // ----- What a call does -----

  /** The most transport calls one delivery can make. */
  function Limit(maxAttempts: nat): nat {
    if maxAttempts <= MAX_RETRY_ATTEMPTS then maxAttempts else MAX_RETRY_ATTEMPTS + 1
  }

  /** The first attempt from `k` on that is not a clean failure, or the last one allowed. */
  function LastAttempt(answers: Answers, limit: nat, k: nat): (last: nat)
    requires 1 <= k <= limit
    ensures k <= last <= limit
    ensures forall j :: k <= j < last ==> CleanFailure(answers(j))
    ensures last < limit ==> !CleanFailure(answers(last))
    decreases limit - k
  {
    if CleanFailure(answers(k)) && k < limit then LastAttempt(answers, limit, k + 1) else k
  }

  function Records(answers: Answers, n: nat): (records: seq<AttemptRecord>)
    ensures |records| == n
    ensures forall k :: 0 <= k < n ==> records[k] == RecordOf(k + 1, answers(k + 1))
  {
    if n == 0 then [] else Records(answers, n - 1) + [RecordOf(n, answers(n))]
  }

  /** The outcome follows from the last attempt alone. */
  function Concluded(last: TransportResult): Outcome {
    if Acknowledged(last) then Delivered
    else if CleanFailure(last) then RetryExhausted
    else DeadLetteredAmbiguous
  }

  datatype Call = Call(event: Event, secretPresent: bool, endpointGiven: bool, answers: Answers)

  /** Whether the call gets as far as the transport. */
  predicate Attempts(l: Ledger, c: Call) {
    c.secretPresent && c.endpointGiven && c.event.eventId !in l.delivered
  }

  function Last(c: Call, maxAttempts: nat): nat
    requires maxAttempts >= 1
  {
    LastAttempt(c.answers, Limit(maxAttempts), 1)
  }

  function Deliver(l: Ledger, c: Call, maxAttempts: nat): (Ledger, Result)
    requires maxAttempts >= 1
  {
    if !c.secretPresent then (l, Thrown("DELIVERY_SECRET_REQUIRED"))
    else if !c.endpointGiven then (l, Finished(EndpointInvalid, [], false))
    else if c.event.eventId in l.delivered then (l, Finished(DeliveredDuplicate, [], false))
    else
      var n := Last(c, maxAttempts);
      var last := c.answers(n);
      if last.Threw? then (l, Thrown("TRANSPORT"))
      else if Acknowledged(last) then
        (l.(delivered := l.delivered[c.event.eventId := n]), Finished(Delivered, Records(c.answers, n), false))
      else
        (l.(deadLetters := l.deadLetters + [DeadLetter(c.event, CleanFailure(last), n)]),
         Finished(Concluded(last), Records(c.answers, n), true))
  }

  /** Attempt `k` is followed by another exactly if it was a clean failure and the limit allows one. */
  lemma StepOn(answers: Answers, limit: nat, k: nat)
    requires 1 <= k <= limit
    ensures LastAttempt(answers, limit, k)
            == if CleanFailure(answers(k)) && k < limit then LastAttempt(answers, limit, k + 1) else k
    ensures Records(answers, k) == Records(answers, k - 1) + [RecordOf(k, answers(k))]
  {
  }

  class WebhookDeliveryService {
    const maxAttempts: nat
    var delivered: map<string, nat>
    var deadLetters: seq<DeadLetter>

    function Books(): Ledger
      reads this
    {
      Ledger(delivered, deadLetters)
    }

    constructor (maxAttempts: nat)
      requires maxAttempts >= 1
      ensures Books() == EMPTY && this.maxAttempts == maxAttempts
    {
      this.maxAttempts := maxAttempts;
      delivered, deadLetters := map[], [];
    }

    /** After a failed attempt: None to try again, or the outcome to give up with. */
    method ClassifyFailure(attempt: nat, result: TransportResult) returns (verdict: Option<Outcome>)
      requires !Acknowledged(result) && !result.Threw? && attempt >= 1
      ensures verdict == if CleanFailure(result) && attempt < Limit(maxAttempts) then None else Some(Concluded(result))
    {
      var code := CodeOf(result);
      if (result.Reported? && result.ambiguous) || AmbiguousCode(code) { return Some(DeadLetteredAmbiguous); }
      if !CleanCode(code) { return Some(DeadLetteredAmbiguous); }
      if attempt >= maxAttempts { return Some(RetryExhausted); }
      if ComputeBackoff(attempt - 1).None? { return Some(RetryExhausted); }
      return None;
    }

    /**
     The retry loop. However it ends, its last attempt is the first that was no clean failure, or
     the last the limit allowed; `finalOutcome` starts as Delivered but never survives as such.
     */
    method DeliverEvent(c: Call) returns (r: Result)
      requires maxAttempts >= 1
      modifies this
      ensures (Books(), r) == Deliver(old(Books()), c, maxAttempts)
    {
      if !c.secretPresent { return Thrown("DELIVERY_SECRET_REQUIRED"); }
      if !c.endpointGiven { return Finished(EndpointInvalid, [], false); }
      if c.event.eventId in delivered { return Finished(DeliveredDuplicate, [], false); }
      var attempts: seq<AttemptRecord> := [];
      var attempt: nat := 0;
      var finalOutcome := Delivered;
      var deadLettered := false;
      ghost var l, last := Books(), Last(c, maxAttempts);
      while attempt < maxAttempts && !deadLettered
        invariant Books() == l
        invariant attempts == Records(c.answers, attempt)
        invariant !deadLettered ==>
                    && attempt < Limit(maxAttempts)
                    && LastAttempt(c.answers, Limit(maxAttempts), attempt + 1) == last
        invariant deadLettered ==>
                    && attempt == last
                    && !Acknowledged(c.answers(attempt)) && !c.answers(attempt).Threw?
                    && finalOutcome == Concluded(c.answers(attempt))
        decreases maxAttempts - attempt
      {
        attempt := attempt + 1;
        var result := c.answers(attempt);
        StepOn(c.answers, Limit(maxAttempts), attempt);
        if result.Threw? { return Thrown("TRANSPORT"); }
        if Acknowledged(result) {
          attempts := attempts + [AttemptRecord(attempt, Succeeded, None)];
          delivered := delivered[c.event.eventId := attempt];
          return Finished(Delivered, attempts, false);
        }
        attempts := attempts + [RecordOf(attempt, result)];
        assert attempts == Records(c.answers, attempt);
        var verdict := ClassifyFailure(attempt, result);
        if verdict.Some? { finalOutcome, deadLettered := verdict.value, true; }
      }
      if deadLettered {
        deadLetters := deadLetters + [DeadLetter(c.event, finalOutcome.RetryExhausted?, attempt)];
      }
      r := Finished(finalOutcome, attempts, deadLettered);
    }
  }

  // ----- One call -----

  /**
   The retry discipline of one call: it makes at most min(maxAttempts, 6) attempts, tries again
   only after clean failures, and is DELIVERED exactly when its last attempt was acknowledged. It
   leaves exactly one dead letter when it says so, and otherwise none.
   */
  lemma RetryDiscipline(l: Ledger, c: Call, maxAttempts: nat)
    requires maxAttempts >= 1
    ensures var (l', r) := Deliver(l, c, maxAttempts);
            && (r.Finished? ==>
                  && |r.attempts| <= Limit(maxAttempts) <= MAX_RETRY_ATTEMPTS + 1
                  && (r.attempts == [] <==> r.outcome.DeliveredDuplicate? || r.outcome.EndpointInvalid?)
                  && (r.attempts != [] ==>
                        && (forall k :: 1 <= k < |r.attempts| ==> CleanFailure(c.answers(k)))
                        && (r.outcome.Delivered? <==> Acknowledged(c.answers(|r.attempts|)))
                        && (r.outcome.RetryExhausted? <==>
                              CleanFailure(c.answers(|r.attempts|)) && |r.attempts| == Limit(maxAttempts)))
                  && |l'.deadLetters| == |l.deadLetters| + (if r.deadLettered then 1 else 0)
                  && (r.deadLettered <==> r.outcome.RetryExhausted? || r.outcome.DeadLetteredAmbiguous?)
                  && (l'.delivered != l.delivered ==> r.outcome.Delivered?))
            && (r.Thrown? ==> l' == l)
  {
  }

  /** The transport says, and nothing contradicts it, that the event was not delivered. */
  predicate CertainlyLost(r: TransportResult) {
    match r
    case Threw => false
    case NoResult => true
    case Reported(ok, code, ambiguous) =>
      && !ok && !ambiguous
      && (|| code.None? || code == Some("TRANSPORT_ERROR") || code == Some("DOWNSTREAM_UNAVAILABLE")
          || code == Some("UNAVAILABLE"))
  }

  lemma CleanIff(r: TransportResult)
    ensures CleanFailure(r) <==> CertainlyLost(r)
  {
  }

  /** The log entry of an attempt: its number, how it went, and the reported code if it failed. */
  predicate Logs(a: AttemptRecord, k: nat, outcome: AttemptOutcome, r: TransportResult) {
    && a.attempt == k && a.outcome == outcome
    && (if outcome.Succeeded? then a.reasonCode.None?
        else a.reasonCode == Some(if r.Reported? && r.code.Some? then r.code.value else "TRANSPORT_ERROR"))
  }

  lemma {:induction false} LastIs(answers: Answers, limit: nat, k: nat, last: nat)
    requires 1 <= k <= last <= limit && forall j :: k <= j < last ==> CleanFailure(answers(j))
    requires last == limit || !CleanFailure(answers(last))
    ensures LastAttempt(answers, limit, k) == last
    decreases limit - k
  {
    if k < last { LastIs(answers, limit, k + 1, last); }
  }

  /**
   How a delivery ends, told by what the transport reported: it goes on while the event was certainly
   not delivered, through at most six attempts. The attempt it ends with delivers it, throws, or
   leaves a dead letter, which says whether the attempts were used up or the outcome is in doubt.
   */
  lemma DeliveryEnds(l: Ledger, c: Call, maxAttempts: nat, k: nat)
    requires Attempts(l, c) && 1 <= k <= maxAttempts && k <= 6
    requires forall j :: 1 <= j < k ==> CertainlyLost(c.answers(j))
    requires !CertainlyLost(c.answers(k)) || k == maxAttempts || k == 6
    ensures var (l', r) := Deliver(l, c, maxAttempts);
            var event := c.event;
            && (r.Finished? ==>
                  && |r.attempts| == k
                  && (forall j :: 1 <= j < k ==> Logs(r.attempts[j - 1], j, FailedAttempt, c.answers(j)))
                  && Logs(r.attempts[k - 1], k,
                          if Acknowledged(c.answers(k)) then Succeeded
                          else if InDoubt(c.answers(k)) then AmbiguousAttempt else FailedAttempt, c.answers(k)))
            && match c.answers(k)
               case Threw => r == Thrown("TRANSPORT") && l' == l
               case NoResult =>
                 && r.Finished? && r.outcome.RetryExhausted?
                 && l' == l.(deadLetters := l.deadLetters + [DeadLetter(event, true, k)])
               case Reported(ok, code, ambiguous) =>
                 && r.Finished?
                 && (if ok then r.outcome.Delivered? && l' == l.(delivered := l.delivered[event.eventId := k])
                     else if CertainlyLost(c.answers(k)) then
                       && r.outcome.RetryExhausted?
                       && l' == l.(deadLetters := l.deadLetters + [DeadLetter(event, true, k)])
                     else
                       && r.outcome.DeadLetteredAmbiguous?
                       && l' == l.(deadLetters := l.deadLetters + [DeadLetter(event, false, k)]))
  {
    forall j | 1 <= j <= k
      ensures CleanFailure(c.answers(j)) <==> CertainlyLost(c.answers(j))
    {
      CleanIff(c.answers(j));
    }
    LastIs(c.answers, Limit(maxAttempts), 1, k);
  }

  // ----- Whole runs -----

  /** One transport call and whether it was acknowledged. */
  datatype Sent = Sent(eventId: string, acknowledged: bool)

  /** The transport calls of one delivery, up to the k-th. */
  function SentBy(c: Call, n: nat): (log: seq<Sent>)
    ensures |log| == n
    ensures forall k :: 0 <= k < n ==> log[k] == Sent(c.event.eventId, Acknowledged(c.answers(k + 1)))
  {
    if n == 0 then [] else SentBy(c, n - 1) + [Sent(c.event.eventId, Acknowledged(c.answers(n)))]
  }

  /** All transport calls of a run of deliveries, in order. */
  function Traffic(l: Ledger, calls: seq<Call>, maxAttempts: nat): seq<Sent>
    requires maxAttempts >= 1
    decreases |calls|
  {
    if calls == [] then []
    else
      (if Attempts(l, calls[0]) then SentBy(calls[0], Last(calls[0], maxAttempts)) else [])
      + Traffic(Deliver(l, calls[0], maxAttempts).0, calls[1..], maxAttempts)
  }

  /** An acknowledged call is the last one of its event. */
  ghost predicate NothingAfterAcknowledged(log: seq<Sent>) {
    forall i, j :: 0 <= i < j < |log| && log[i].eventId == log[j].eventId ==> !log[i].acknowledged
  }

  lemma {:induction false} DeliveredIsNotSent(l: Ledger, calls: seq<Call>, maxAttempts: nat)
    requires maxAttempts >= 1
    ensures forall s :: s in Traffic(l, calls, maxAttempts) ==> s.eventId !in l.delivered
    decreases |calls|
  {
    if calls != [] {
      DeliveredIsNotSent(Deliver(l, calls[0], maxAttempts).0, calls[1..], maxAttempts);
    }
  }

  /**
   Over any run of deliveries an event is acknowledged at most once, and nothing of it is sent
   after that.
   */
  lemma {:induction false} AcknowledgedOnce(l: Ledger, calls: seq<Call>, maxAttempts: nat)
    requires maxAttempts >= 1
    ensures NothingAfterAcknowledged(Traffic(l, calls, maxAttempts))
    decreases |calls|
  {
    if calls != [] {
      var c := calls[0];
      var l' := Deliver(l, c, maxAttempts).0;
      DeliveredIsNotSent(l', calls[1..], maxAttempts);
      AcknowledgedOnce(l', calls[1..], maxAttempts);
      var rest := Traffic(l', calls[1..], maxAttempts);
      if Attempts(l, c) {
        FirstCallComesFirst(l, c, maxAttempts, rest);
      } else {
        assert [] + rest == rest;
      }
    }
  }

  lemma FirstCallComesFirst(l: Ledger, c: Call, maxAttempts: nat, rest: seq<Sent>)
    requires maxAttempts >= 1 && Attempts(l, c)
    requires forall s :: s in rest ==> s.eventId !in Deliver(l, c, maxAttempts).0.delivered
    requires NothingAfterAcknowledged(rest)
    ensures NothingAfterAcknowledged(SentBy(c, Last(c, maxAttempts)) + rest)
  {
  }
}
