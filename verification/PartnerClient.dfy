/**
 ARMA's client for the partner API: failure classification and the bounded send loop
 (patches/arma/patchesPartnerClient.ts).
 */
module PartnerClient {
  import opened Wrappers

  datatype FailureClass = CleanRetryable | Ambiguous | Terminal

  /** What the error chain of a failed fetch or body read comes down to. */
  datatype TransportError = TransportError(aborted: bool, code: Option<string>)

  datatype Verification = Verification(verified: bool, reason: Option<string>)

  datatype Evidence = Evidence(transportError: Option<TransportError>, httpStatus: Option<nat>,
                               errorCode: Option<string>, receiptExpected: bool,
                               verification: Option<Verification>, responseComplete: bool,
                               serverApiVersion: Option<string>)

  datatype Classification = Classification(failureClass: FailureClass, failureReason: Option<string>)

  predicate IsAuthFailure(code: string) {
    code in {"AUTH_MISSING", "AUTH_MALFORMED", "PARTNER_UNKNOWN", "PARTNER_SUSPENDED",
             "CREDENTIAL_UNKNOWN", "CREDENTIAL_REVOKED", "CREDENTIAL_EXPIRED",
             "TIMESTAMP_OUT_OF_WINDOW", "NONCE_INVALID", "NONCE_REPLAYED",
             "SIGNATURE_INVALID", "SECRET_UNAVAILABLE"}
  }

  /** Errors from before the request left. */
  predicate IsPreDelivery(code: string) {
    code in {"ECONNREFUSED", "ENOTFOUND", "EAI_AGAIN", "EHOSTUNREACH", "ENETUNREACH", "UND_ERR_CONNECT_TIMEOUT"}
  }

  function ClassifyTransport(e: TransportError): Classification {
    if e.aborted || e.code == Some("ABORT_ERR") || e.code == Some("UND_ERR_ABORTED") then
      Classification(Ambiguous, Some("TIMEOUT"))
    else if e.code.Some? && IsPreDelivery(e.code.value) then
      Classification(CleanRetryable, Some("CONN_" + e.code.value))
    else
      Classification(Ambiguous, Some(if e.code.Some? && e.code.value != "" then "DROP_" + e.code.value else "CONNECTION_DROP"))
  }

  function HttpReason(status: nat): string {
    match status
    case 400 => "HTTP_400"
    case 403 => "HTTP_403"
    case 404 => "HTTP_404"
    case 409 => "HTTP_409"
    case _ => "HTTP_413"
  }

  /** The table of statuses and codes, once the response is complete and carries no bad receipt. */
  function ClassifyStatus(status: nat, errorCode: Option<string>, receiptExpected: bool,
                          version: Option<string>): Classification {
    if status == 429 then Classification(CleanRetryable, Some("RATE_LIMITED"))
    else if status == 503 && errorCode == Some("PARTNER_API_DISABLED") then
      Classification(CleanRetryable, Some("PATCHES_API_DISABLED"))
    else if status == 503 && errorCode == Some("DOWNSTREAM_UNAVAILABLE") then
      Classification(CleanRetryable, Some("DOWNSTREAM_UNAVAILABLE"))
    else if status == 500 && errorCode == Some("PARTNER_PERSISTENCE_FAILED") then
      Classification(CleanRetryable, Some("PERSISTENCE_ROLLED_BACK"))
    else if status == 200 && !receiptExpected then
      Classification(Terminal, Some(if version.Some? && version.value != "v1" then "SERVER_VERSION_MISMATCH" else "UNEXPECTED_2XX"))
    else if errorCode.Some? && IsAuthFailure(errorCode.value) then
      Classification(Terminal, Some("AUTH_" + errorCode.value))
    else if status in {400, 403, 404, 409, 413} then
      Classification(Terminal, Some(if errorCode.Some? then errorCode.value else HttpReason(status)))
    else
      Classification(Ambiguous, Some(if errorCode.Some? && errorCode.value != "" then "UNPROVABLE_" + errorCode.value
                                     else "UNPROVABLE_5XX"))
  }

  predicate BadReceipt(e: Evidence) {
    e.receiptExpected && e.httpStatus.Some? && 200 <= e.httpStatus.value < 300
    && (e.verification.None? || !e.verification.value.verified
        || (e.serverApiVersion.Some? && e.serverApiVersion.value != "v1"))
  }

  function ClassifyFailure(e: Evidence): Classification {
    if e.transportError.Some? then ClassifyTransport(e.transportError.value)
    else if !e.responseComplete then Classification(Ambiguous, Some("RESPONSE_LOST"))
    else if BadReceipt(e) then
      Classification(Ambiguous,
                     if e.verification.None? then Some("RECEIPT_UNVERIFIED")
                     else if !e.verification.value.verified then
                       (if e.verification.value.reason.Some? then e.verification.value.reason else Some("RECEIPT_UNVERIFIED"))
                     else Some("SERVER_VERSION_MISMATCH"))
    else if e.httpStatus.None? then Classification(Ambiguous, Some("UNKNOWN_OUTCOME"))
    else ClassifyStatus(e.httpStatus.value, e.errorCode, e.receiptExpected, e.serverApiVersion)
  }

  // ----- One attempt -----

  /** What an attempt meets: the local switch, no usable credential, or an exchange. */
  datatype Attempt =
    | SwitchedOff
    | NoCredential
    | Exchanged(evidence: Evidence, parsed: bool)

  datatype Verdict = Okay | Failed(why: Classification)

  predicate Success2xx(e: Evidence) {
    e.transportError.None? && e.responseComplete && e.httpStatus.Some? && 200 <= e.httpStatus.value < 300
  }

  /** A verified receipt where one is expected, a readable body where none is; all else is classified. */
  function Judge(a: Attempt): Verdict {
    match a
    case SwitchedOff => Failed(Classification(Terminal, Some("ARMA_OUTBOUND_DISABLED")))
    case NoCredential => Failed(Classification(Terminal, Some("CREDENTIAL_SOURCE_INVALID")))
    case Exchanged(e, parsed) =>
      if Success2xx(e) && e.receiptExpected && e.verification.Some? && e.verification.value.verified then Okay
      else if Success2xx(e) && !e.receiptExpected && parsed then
        if e.serverApiVersion.Some? && e.serverApiVersion.value != "v1"
        then Failed(Classification(Terminal, Some("SERVER_VERSION_MISMATCH"))) else Okay
      else if e.transportError.None? && !e.responseComplete then Failed(Classification(Ambiguous, Some("CONNECTION_DROP")))
      else Failed(ClassifyFailure(e))
  }

  predicate Retries(v: Verdict) {
    v.Failed? && v.why.failureClass.CleanRetryable?
  }

  // ----- What an attempt met, told by the evidence -----

  /** Nothing was processed: the request never left, or the server says it stopped before its route or rolled back. */
  predicate NothingProcessed(a: Attempt) {
    a.Exchanged?
    && var e := a.evidence;
       if e.transportError.Some? then
         && !e.transportError.value.aborted && e.transportError.value.code.Some?
         && var code := e.transportError.value.code.value;
            || code == "ECONNREFUSED" || code == "ENOTFOUND" || code == "EAI_AGAIN" || code == "EHOSTUNREACH"
            || code == "ENETUNREACH" || code == "UND_ERR_CONNECT_TIMEOUT"
       else
         && e.responseComplete
         && (|| e.httpStatus == Some(429)
             || (e.httpStatus == Some(503)
                 && (e.errorCode == Some("PARTNER_API_DISABLED") || e.errorCode == Some("DOWNSTREAM_UNAVAILABLE")))
             || (e.httpStatus == Some(500) && e.errorCode == Some("PARTNER_PERSISTENCE_FAILED")))
  }

  /** A success came back: a verified receipt where one is due, a readable body of this version where none is. */
  predicate BroughtSuccess(a: Attempt) {
    a.Exchanged?
    && var e := a.evidence;
       && e.transportError.None? && e.responseComplete && e.httpStatus.Some? && 200 <= e.httpStatus.value <= 299
       && (if e.receiptExpected then e.verification.Some? && e.verification.value.verified
           else a.parsed && (e.serverApiVersion.Some? ==> e.serverApiVersion.value == "v1"))
  }

  lemma JudgedAsMet(a: Attempt)
    ensures Judge(a).Okay? <==> BroughtSuccess(a)
    ensures Retries(Judge(a)) <==> NothingProcessed(a)
  {
  }

  // ----- The send loop -----

  /** Attempt k of a call, counted from 1, meets `attempts(k)`. */
  type Attempts = nat -> Attempt

  datatype Outcome = Outcome(ok: bool, failureClass: Option<FailureClass>, failureReason: Option<string>,
                             retriesExhausted: bool, attempts: nat)

  /** The first attempt from `k` on that is not clean to retry, or the last one allowed. */
  function LastAttempt(attempts: Attempts, max: nat, k: nat): (last: nat)
    requires 1 <= k <= max
    ensures k <= last <= max
    ensures forall j :: k <= j < last ==> Retries(Judge(attempts(j)))
    ensures last < max ==> !Retries(Judge(attempts(last)))
    decreases max - k
  {
    if Retries(Judge(attempts(k))) && k < max then LastAttempt(attempts, max, k + 1) else k
  }

  function OutcomeOf(v: Verdict, n: nat): Outcome {
    match v
    case Okay => Outcome(true, None, None, false, n)
    case Failed(why) =>
      Outcome(false, Some(why.failureClass), why.failureReason, why.failureClass.CleanRetryable?, n)
  }

  /** Tries again only after a clean failure, at most `maxAttempts` times; the last attempt decides. */
  method Send(attempts: Attempts, maxAttempts: nat) returns (outcome: Outcome)
    requires maxAttempts >= 1
    ensures outcome.attempts == LastAttempt(attempts, maxAttempts, 1)
    ensures outcome == OutcomeOf(Judge(attempts(outcome.attempts)), outcome.attempts)
    ensures outcome.retriesExhausted ==> outcome.attempts == maxAttempts
    ensures forall j :: 1 <= j < outcome.attempts ==> NothingProcessed(attempts(j))
    ensures 1 <= outcome.attempts < maxAttempts ==> !NothingProcessed(attempts(outcome.attempts))
    ensures outcome.ok <==> BroughtSuccess(attempts(outcome.attempts))
    ensures outcome.retriesExhausted <==> NothingProcessed(attempts(outcome.attempts))
    ensures forall k :: && 1 <= k <= maxAttempts && BroughtSuccess(attempts(k))
                        && (forall j :: 1 <= j < k ==> NothingProcessed(attempts(j))) ==>
              outcome.ok && outcome.attempts == k
  {
    forall k: nat { JudgedAsMet(attempts(k)); }
    outcome := Outcome(false, None, None, false, 0);
    for attemptNo := 1 to maxAttempts + 1
      invariant attemptNo <= maxAttempts ==>
                  LastAttempt(attempts, maxAttempts, attemptNo) == LastAttempt(attempts, maxAttempts, 1)
      invariant attemptNo <= maxAttempts
    {
      var a := attempts(attemptNo);
      if a.SwitchedOff? || a.NoCredential? {
        return OutcomeOf(Judge(a), attemptNo);
      }
      var verdict := Judge(a);
      if verdict.Okay? { return Outcome(true, None, None, false, attemptNo); }
      if verdict.why.failureClass.CleanRetryable? && attemptNo < maxAttempts { continue; }
      var exhausted := verdict.why.failureClass.CleanRetryable? && attemptNo >= maxAttempts;
      return Outcome(false, Some(verdict.why.failureClass), verdict.why.failureReason, exhausted, attemptNo);
    }
  }
}
