/** ARMA's reading of a gateway response (law-shield/arma/receiptVerifier.js, retryPolicy.js). */
module ReceiptVerifier {
  import opened Wrappers

  const SCHEMA_VERSION := "arma-lawshield.v1"
  const RETRY_SCHEDULE_MS: seq<int> := [1_000, 5_000, 30_000, 120_000, 600_000]
  const MAX_RETRY_ATTEMPTS: nat := |RETRY_SCHEDULE_MS|

  /** The receipt a gateway signs. `acceptedAt` is None when it is not a finite number. */
  datatype GatewayReceipt = GatewayReceipt(schemaVersion: string, receiptId: string, transferId: string,
                                           idempotencyKey: string, status: string, accepted: bool,
                                           acceptedAt: Option<int>, armaOrgId: string,
                                           lawShieldOrgId: string, recordType: string,
                                           recordId: string, receivedPayloadHash: string)

  /**
   A 200 response as ARMA sees it. The two cryptographic comparisons are given as booleans;
   `receipt` is None when the body is not JSON.
   */
  datatype ReceiptWire = ReceiptWire(headersPresent: bool, schemaVersion: string, receiptId: string,
                                     bodyPresent: bool, hashMatches: bool, signatureMatches: bool,
                                     receipt: Option<GatewayReceipt>)

  /** What ARMA sent and now expects to see confirmed. */
  datatype Expected = Expected(transferId: string, idempotencyKey: string, armaOrgId: string,
                               lawShieldOrgId: string, payloadHash: string, recordType: string,
                               recordId: string)

  predicate Differs(expected: string, actual: string) {
    expected != "" && actual != expected
  }

  /** The receipt, once every check passed; else the code of the first check that failed. */
  function VerifyReceipt(w: ReceiptWire, e: Expected): Result<GatewayReceipt, string> {
    if !w.headersPresent then Failure("RECEIPT_HEADERS_MISSING")
    else if w.schemaVersion != SCHEMA_VERSION then Failure("SCHEMA_VERSION_UNSUPPORTED")
    else if !w.bodyPresent then Failure("RECEIPT_EMPTY_BODY")
    else if !w.hashMatches then Failure("RECEIPT_BODY_HASH_MISMATCH")
    else if !w.signatureMatches then Failure("RECEIPT_INVALID_SIGNATURE")
    else if w.receipt.None? then Failure("RECEIPT_INVALID_JSON")
    else
      var r := w.receipt.value;
      if r.receiptId != w.receiptId then Failure("RECEIPT_ID_MISMATCH")
      else if r.transferId == "" then Failure("RECEIPT_TRANSFER_ID_MISSING")
      else if Differs(e.transferId, r.transferId) then Failure("RECEIPT_TRANSFER_ID_MISMATCH")
      else if Differs(e.idempotencyKey, r.idempotencyKey) then Failure("RECEIPT_IDEMPOTENCY_MISMATCH")
      else if Differs(e.armaOrgId, r.armaOrgId) then Failure("RECEIPT_ORG_MISMATCH")
      else if Differs(e.lawShieldOrgId, r.lawShieldOrgId) then Failure("RECEIPT_ORG_MISMATCH")
      else if r.status != "ACCEPTED" then Failure("RECEIPT_STATUS_NOT_ACCEPTED")
      else if !r.accepted then Failure("RECEIPT_ACCEPTED_NOT_TRUE")
      else if Differs(e.payloadHash, r.receivedPayloadHash) then Failure("RECEIPT_PAYLOAD_HASH_MISMATCH")
      else if Differs(e.recordType, r.recordType) then Failure("RECEIPT_RECORD_TYPE_MISMATCH")
      else if Differs(e.recordId, r.recordId) then Failure("RECEIPT_RECORD_ID_MISMATCH")
      else if r.acceptedAt.None? then Failure("RECEIPT_ACCEPTED_AT_INVALID")
      else Success(r)
  }

  datatype Classification = Classification(code: string, retryable: bool, ambiguous: bool,
                                           cleanRetryable: bool)

  function ClassifyGatewayFailure(status: nat, error: Option<string>, retryable: bool): Classification {
    var code := if error.Some? then error.value
                else if status == 502 then "PROCESSOR_UNKNOWN" else "GATEWAY_UNKNOWN";
    Classification(code, retryable,
                   code == "PROCESSOR_RECEIPT_MISMATCH" || code == "PROCESSOR_TIMEOUT",
                   code == "PROCESSOR_UNAVAILABLE")
  }

  predicate CanAutoRetry(c: Classification) {
    c.cleanRetryable && (c.retryable || c.cleanRetryable)
  }

  /** The delay before the next attempt, while the schedule lasts. */
  function ComputeBackoff(retryCount: nat): Option<int> {
    if retryCount >= MAX_RETRY_ATTEMPTS then None else Some(RETRY_SCHEDULE_MS[retryCount])
  }
}
