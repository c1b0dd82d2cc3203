/** The Law Shield gateway between ARMA and the processor (law-shield/lawshield/arma-integration.js). */
module LawShieldGateway {
  import opened Wrappers
  import Nonces
  import ReceiptVerifier
  import LawShieldStore
  import opened LawShieldProcessor

  /** What came back from the processor: nothing, or a response (None: it was not JSON). */
  datatype Upstream =
    | Unreachable(timedOut: bool)
    | Answered(httpOk: bool, reply: Option<Reply>)

  datatype Response =
    | Signed(receipt: ReceiptVerifier.GatewayReceipt)
    | Failed(status: nat, error: string, retryable: bool, reconciliationRequired: bool)

  /** A reply that names a transfer or a payload names the ones that were sent. */
  predicate Consistent(env: Envelope, r: Reply)
    requires r.Acceptance?
  {
    (r.transferId != "" ==> r.transferId == env.transferId)
    && (r.payloadHash != "" ==> r.payloadHash == env.payloadHash)
  }

  function ReceiptFor(env: Envelope, r: Reply): ReceiptVerifier.GatewayReceipt
    requires r.Acceptance?
  {
    ReceiptVerifier.GatewayReceipt(
      SCHEMA_VERSION, r.receiptId, env.transferId, env.idempotencyKey, "ACCEPTED", true,
      Some(r.acceptedAt), env.subject.armaOrgId, env.subject.lawShieldOrgId,
      env.subject.recordType, env.subject.recordId, env.payloadHash)
  }

  /** The gateway signs a receipt for a consistent acceptance and for nothing else. */
  function Respond(env: Envelope, up: Upstream): Response {
    match up
    case Unreachable(timedOut) =>
      Failed(502, if timedOut then "PROCESSOR_TIMEOUT" else "PROCESSOR_UNAVAILABLE", true, false)
    case Answered(httpOk, reply) =>
      if reply.None? then Failed(502, "PROCESSOR_NON_JSON_RESPONSE", false, false)
      else if !httpOk || !reply.value.Acceptance? || reply.value.receiptId == "" then
        Failed(502,
               if reply.value.Denial? && reply.value.error.Some? && reply.value.error.value != ""
               then reply.value.error.value else "PROCESSOR_REJECTED_TRANSFER", false, false)
      else if !Consistent(env, reply.value) then Failed(502, "PROCESSOR_RECEIPT_MISMATCH", false, true)
      else Signed(ReceiptFor(env, reply.value))
  }

  /** The nonces the first-layer guard still remembers at time `now`. */
  function Fresh(seen: map<string, int>, now: int): map<string, int> {
    Nonces.Remembered(seen, 2 * LawShieldStore.MAX_CLOCK_SKEW_MS, now)
  }

  class ReplayGuard {
    var replaySeen: map<string, int>

    constructor ()
      ensures replaySeen == map[]
    {
      replaySeen := map[];
    }

    /** Forgets stale nonces, then takes this one unless it is remembered. */
    method Remember(nonce: string, now: int) returns (taken: bool)
      modifies this
      ensures taken <==> nonce !in Fresh(old(replaySeen), now)
      ensures replaySeen == if taken then Fresh(old(replaySeen), now)[nonce := now]
                            else Fresh(old(replaySeen), now)
    {
      var pending := replaySeen.Keys;
      while pending != {}
        invariant pending <= old(replaySeen).Keys
        invariant forall n :: n in replaySeen <==>
                    n in old(replaySeen) && (n in pending || n in Fresh(old(replaySeen), now))
        invariant forall n :: n in replaySeen ==> replaySeen[n] == old(replaySeen)[n]
        decreases |pending|
      {
        var n :| n in pending;
        if now - replaySeen[n] > 2 * LawShieldStore.MAX_CLOCK_SKEW_MS {
          replaySeen := replaySeen - {n};
        }
        pending := pending - {n};
      }
      assert replaySeen == Fresh(old(replaySeen), now);
      if nonce in replaySeen { return false; }
      replaySeen := replaySeen[nonce := now];
      taken := true;
    }
  }
}
