/**
 The durable Law Shield processor (law-shield/lawshield/durable/processor.js).

 `Process` says what one request does to the tables in terms of whole tables: nothing in it is
 written and taken back. `ProcessTransferRequest` does what the source does: it writes table by
 table inside a transaction and restores a snapshot when a write fails.
 */
module LawShieldProcessor {
  import opened Wrappers
  import opened Nonces
  import Json
  import Redaction
  import opened LawShieldStore

  const SCHEMA_VERSION := "arma-lawshield.v1"

  datatype EnvelopeFields = EnvelopeFields(transferId: string, idempotencyKey: string,
                                           subject: Subject, payload: Json.Value,
                                           payloadHash: string, sentAt: int)

  const NO_SUBJECT := Subject("", "", None, None, "", "", "")

  /** What the canonical validator lets through has a transfer id, a key and a payload hash. */
  type Envelope = e: EnvelopeFields | e.transferId != "" && e.idempotencyKey != "" && e.payloadHash != ""
    witness EnvelopeFields("t", "k", NO_SUBJECT, Json.Null, "h", 0)

  /** The raw body: empty, not JSON, JSON the canonical validator refuses, or an envelope. */
  datatype Body =
    | EmptyBody
    | NotJson
    | Invalid(code: string, transferId: Option<string>, idempotencyKey: Option<string>)
    | Valid(envelope: Envelope)

  /** A forwarded request; `bodyHash` is the hash of the raw bytes received. */
  datatype Request = Request(body: Body, bodyHash: string, nonce: Option<string>,
                             contentHash: Option<string>, schemaVersion: Option<string>,
                             transferId: Option<string>)

  datatype Kind = AcceptedKind | DuplicateKind | RejectedKind | QuarantinedKind | ErrorKind

  datatype Reply =
    | Acceptance(receiptId: string, transferId: string, acceptedAt: int, processingResult: string,
                 payloadHash: string)
    | Denial(error: Option<string>, aboutTransfer: Option<string>, aboutKey: Option<string>,
             quarantined: bool, violationPaths: Option<seq<string>>)

  /** A structured result, or an error that reaches the HTTP layer (which answers 503). */
  datatype Outcome =
    | Responded(kind: Kind, httpStatus: nat, reply: Reply)
    | Thrown(code: string)

  function Deny(kind: Kind, httpStatus: nat, code: string, env: Envelope): Outcome {
    Responded(kind, httpStatus, Denial(Some(code), Some(env.transferId), Some(env.idempotencyKey), false, None))
  }

  function DenyUnread(httpStatus: nat, code: string): Outcome {
    Responded(ErrorKind, httpStatus, Denial(Some(code), None, None, false, None))
  }

  function ReceiptIdFor(transferId: string): string {
    "RCP-" + transferId
  }

  function ConflictIdFor(transferId: string): string {
    "CONFLICT-" + transferId
  }

  function WireShape(r: Receipt): Reply {
    Acceptance(r.receiptId, r.transferId, r.acceptedAt, r.processingResult, r.payloadHash)
  }

  // ----- Screening: everything decided before the tables are consulted -----

  datatype Screening =
    | Stop(outcome: Outcome)
    | StopAudited(entry: AuditEntry, outcome: Outcome)
    | Proceed(nonce: string, envelope: Envelope)

  predicate IsHexDigit(c: char) {
    '0' <= c <= '9' || 'a' <= c <= 'f' || 'A' <= c <= 'F'
  }

  predicate IsSha256Hex(s: string) {
    |s| == 64 && forall i :: 0 <= i < |s| ==> IsHexDigit(s[i])
  }

  function Distance(a: int, b: int): int {
    if a < b then b - a else a - b
  }

  function Screen(r: Request, now: int): Screening {
    if r.body.EmptyBody? then Stop(DenyUnread(400, "INVALID_JSON"))
    else if r.nonce.None? || !WellFormedNonce(r.nonce.value) then Stop(DenyUnread(400, "INVALID_NONCE"))
    else if r.contentHash.None? || !IsSha256Hex(r.contentHash.value) then
      Stop(DenyUnread(400, "INVALID_CONTENT_HASH"))
    else if r.schemaVersion != Some(SCHEMA_VERSION) then
      Stop(DenyUnread(422, "SCHEMA_VERSION_UNSUPPORTED"))
    else
      match r.body
      case Valid(env) =>
        if r.transferId.Some? && r.transferId.value != "" && r.transferId.value != env.transferId then
          Stop(Deny(ErrorKind, 400, "PROCESSOR_TRANSFER_ID_MISMATCH", env))
        else if r.contentHash.value != r.bodyHash then
          Stop(Deny(ErrorKind, 400, "PROCESSOR_CONTENT_HASH_MISMATCH", env))
        else if Distance(now, env.sentAt) > NONCE_VALIDITY_WINDOW_MS then
          Stop(Deny(RejectedKind, 200, "STALE_OR_FUTURE_REQUEST", env))
        else Proceed(r.nonce.value, env)
      case Invalid(code, transferId, key) =>
        StopAudited(AuditEntry(transferId, key, "TRANSFER_ENVELOPE_REJECTED", "REJECTED", code),
                    Responded(RejectedKind, 200, Denial(Some(code), transferId, key, false, None)))
      case _ => Stop(DenyUnread(400, "INVALID_JSON"))
  }

  // ----- Business checks -----

  function CheckAuthorizer(d: Directory, env: Envelope): Option<string> {
    if env.subject.authorizedBy !in d.authorizers then Some("AUTHORIZER_UNKNOWN")
    else if !d.authorizers[env.subject.authorizedBy].active then Some("AUTHORIZER_INACTIVE")
    else if d.authorizers[env.subject.authorizedBy].armaOrgId != env.subject.armaOrgId then
      Some("AUTHORIZER_ORG_MISMATCH")
    else None
  }

  predicate Truthy(s: Option<string>) {
    s.Some? && s.value != ""
  }

  function CheckMappings(d: Directory, env: Envelope): Option<string> {
    var s := env.subject;
    if s.armaOrgId !in d.orgMappings then Some("ORG_MAPPING_MISSING")
    else if !d.orgMappings[s.armaOrgId].active then Some("ORG_MAPPING_INACTIVE")
    else if d.orgMappings[s.armaOrgId].lawShieldOrgId != s.lawShieldOrgId then Some("ORG_MAPPING_MISMATCH")
    else if !Truthy(s.incidentId) then None
    else
      var key := (s.armaOrgId, s.incidentId.value);
      if key !in d.caseMappings then Some("CASE_MAPPING_MISSING")
      else if !d.caseMappings[key].active then Some("CASE_MAPPING_INACTIVE")
      else if d.caseMappings[key].lawShieldOrgId != s.lawShieldOrgId then Some("CASE_MAPPING_MISMATCH")
      else if Truthy(s.lawShieldCaseId) && d.caseMappings[key].lawShieldCaseId != s.lawShieldCaseId.value
      then Some("CASE_MAPPING_MISMATCH")
      else None
  }

  /** The fields cleared for disclosure, or the code the transfer is refused with. */
  type Verdict = Result<seq<string>, Redaction.Refusal>

  function BusinessVerdict(d: Directory, env: Envelope): Verdict {
    var authorizer := CheckAuthorizer(d, env);
    var mappings := CheckMappings(d, env);
    if authorizer.Some? then Failure(Redaction.Refusal(authorizer.value, None))
    else if mappings.Some? then Failure(Redaction.Refusal(mappings.value, None))
    else Redaction.Enforced(Redaction.PolicyFor(env.subject.recordType), env.payload)
  }

  function StatusOfRefusal(code: string): Status {
    if code == "MINIMUM_NECESSARY_VIOLATION" || code == "ALWAYS_REDACTED_FIELD_PRESENT"
       || code == "IDEMPOTENCY_KEY_CONFLICT"
    then Quarantined else Rejected
  }

  // ----- The decision on whole tables -----

  function BestEffortAudit(s: Tables, fp: FailPoints, entry: AuditEntry): Tables {
    if fp.auditWrite then s else Audited(s, entry)
  }

  function Entry(env: Envelope, eventType: string, outcome: string, code: string): AuditEntry {
    AuditEntry(Some(env.transferId), Some(env.idempotencyKey), eventType, outcome, code)
  }

  /** A write failed: nothing but one best-effort audit event remains of the request. */
  function PersistenceFailed(s: Tables, fp: FailPoints, env: Envelope, code: string): (Tables, Outcome) {
    (BestEffortAudit(s, fp, Entry(env, "PROCESSOR_TRANSACTION_FAILED", "FAILED", code)),
     Deny(ErrorKind, 500, code, env))
  }

  /** The code of the first write that fails when `record` is to be stored, or None. */
  function TransferWriteFailure(s: Tables, fp: FailPoints, record: Transfer): Option<string> {
    if fp.persistTransfer then Some("PROCESSOR_PERSISTENCE_FAILED")
    else if !Admits(s.transfers, record) then Some("TRANSFER_ALREADY_PROCESSED")
    else None
  }

  function TransferFor(env: Envelope, id: string, status: Status, receiptId: Option<string>,
                       at: int, lastErrorCode: Option<string>, fields: seq<string>): Transfer
  {
    Transfer(id, env.idempotencyKey, env.subject, env.payloadHash, status, receiptId,
             if status.Accepted? then Some(at) else None,
             if status.Rejected? then Some(at) else None,
             if status.Quarantined? then Some(at) else None,
             lastErrorCode, fields)
  }

  /** Stores a decision: nonce, transfer and binding together, under one audit event. */
  function Decided(s: Tables, nonce: string, env: Envelope, record: Transfer, binding: Binding,
                   now: int, entry: AuditEntry): Tables
  {
    Audited(Bound(WithTransfer(s.(nonces := WithNonce(s.nonces, nonce, env.transferId, now)), record),
                  env.idempotencyKey, binding),
            entry)
  }

  function RefusedRecord(env: Envelope, code: string, now: int): Transfer {
    TransferFor(env, env.transferId, StatusOfRefusal(code), None, now, Some(code), [])
  }

  /** The tables with the whole refusal in them. */
  function RefusedTables(s: Tables, nonce: string, env: Envelope, code: string, now: int): Tables {
    var status := StatusOfRefusal(code);
    var word := if status.Quarantined? then "QUARANTINED" else "REJECTED";
    Decided(s, nonce, env, RefusedRecord(env, code, now),
            Binding(env.transferId, env.payloadHash, status, None, None, Some(code)), now,
            Entry(env, "TRANSFER_" + word, word, code))
  }

  function RefuseFailure(s: Tables, fp: FailPoints, env: Envelope, code: string, now: int): Option<string> {
    var failure := TransferWriteFailure(s, fp, RefusedRecord(env, code, now));
    if failure.Some? then failure
    else if fp.auditWrite then Some("PROCESSOR_PERSISTENCE_FAILED")
    else None
  }

  function Refuse(s: Tables, fp: FailPoints, nonce: string, env: Envelope,
                  refusal: Redaction.Refusal, now: int): (Tables, Outcome)
  {
    var quarantined := StatusOfRefusal(refusal.code).Quarantined?;
    var failure := RefuseFailure(s, fp, env, refusal.code, now);
    if failure.Some? then PersistenceFailed(s, fp, env, failure.value)
    else
      (RefusedTables(s, nonce, env, refusal.code, now),
       Responded(if quarantined then QuarantinedKind else RejectedKind, 200,
                 Denial(Some(refusal.code), Some(env.transferId), Some(env.idempotencyKey),
                        quarantined, refusal.violationPaths)))
  }

  function AcceptedRecord(env: Envelope, fields: seq<string>, now: int): Transfer {
    TransferFor(env, env.transferId, Accepted, Some(ReceiptIdFor(env.transferId)), now, None, fields)
  }

  /** The tables with the whole acceptance in them. */
  function AcceptedTables(s: Tables, nonce: string, env: Envelope, fields: seq<string>, now: int): Tables {
    var receiptId := ReceiptIdFor(env.transferId);
    var binding := Binding(env.transferId, env.payloadHash, Accepted, Some(receiptId), Some(now), None);
    var receipt := Receipt(receiptId, env.transferId, env.idempotencyKey, env.payloadHash, now, "PERSISTED");
    Decided(s, nonce, env, AcceptedRecord(env, fields, now), binding, now,
            Entry(env, "TRANSFER_ACCEPTED", "ACCEPTED", "ACCEPTED"))
      .(receipts := FirstWins(s.receipts, receiptId, receipt))
  }

  function AcceptFailure(s: Tables, fp: FailPoints, env: Envelope, fields: seq<string>, now: int): Option<string> {
    var failure := TransferWriteFailure(s, fp, AcceptedRecord(env, fields, now));
    if failure.Some? then failure
    else if fp.persistReceipt || fp.auditWrite then Some("PROCESSOR_PERSISTENCE_FAILED")
    else None
  }

  function Accept(s: Tables, fp: FailPoints, nonce: string, env: Envelope, fields: seq<string>,
                  now: int): (Tables, Outcome)
  {
    var failure := AcceptFailure(s, fp, env, fields, now);
    if failure.Some? then PersistenceFailed(s, fp, env, failure.value)
    else
      var s' := AcceptedTables(s, nonce, env, fields, now);
      (s', Responded(AcceptedKind, 200, WireShape(s'.receipts[ReceiptIdFor(env.transferId)])))
  }

  /** An attempt that contradicts what is stored: recorded apart, or only audited. */
  function Quarantine(s: Tables, fp: FailPoints, nonce: string, env: Envelope, code: string,
                      wallClock: int): (Tables, Outcome)
  {
    var id := ConflictIdFor(env.transferId);
    var s' := s.(nonces := WithNonce(s.nonces, nonce, env.transferId, wallClock));
    var reply := Responded(QuarantinedKind, 200,
                           Denial(Some(code), Some(env.transferId), Some(env.idempotencyKey), true, None));
    if env.transferId in s.transfers && s.transfers[env.transferId].payloadHash != env.payloadHash then
      if fp.auditWrite then PersistenceFailed(s, fp, env, "PROCESSOR_PERSISTENCE_FAILED")
      else (Audited(s', Entry(env, "TRANSFER_QUARANTINED", "QUARANTINED", "TRANSFER_CONTENT_CONFLICT")), reply)
    else
      var record := TransferFor(env, id, Quarantined, None, wallClock, Some(code), []);
      var failure := TransferWriteFailure(s, fp, record);
      if failure.Some? then PersistenceFailed(s, fp, env, failure.value)
      else if fp.auditWrite then PersistenceFailed(s, fp, env, "PROCESSOR_PERSISTENCE_FAILED")
      else
        (Audited(s'.(transfers := FirstWins(s.transfers, id, record)),
                 AuditEntry(Some(id), Some(env.idempotencyKey), "TRANSFER_QUARANTINED", "QUARANTINED", code)),
         reply)
  }

  /** A repeat of decided content: the nonce is spent, the stored answer is given again. */
  function Replay(s: Tables, fp: FailPoints, nonce: string, env: Envelope, b: Binding, reply: Reply,
                  now: int): (Tables, Outcome)
  {
    var word := match b.outcome case Accepted => "ACCEPTED" case Rejected => "REJECTED"
                                 case Quarantined => "QUARANTINED";
    var code := if b.outcome.Accepted? then "DUPLICATE_COLLAPSED_TO_STORED_RECEIPT"
                else "DUPLICATE_COLLAPSED_TO_STORED_OUTCOME";
    if fp.auditWrite then (s, Thrown("FAILPOINT_auditWrite"))
    else
      (Audited(s.(nonces := WithNonce(s.nonces, nonce, env.transferId, now)),
               Entry(env, "DUPLICATE_DELIVERY_COLLAPSED", word, code)),
       Responded(DuplicateKind, 200, reply))
  }

  function Decide(s: Tables, fp: FailPoints, nonce: string, env: Envelope, verdict: Verdict,
                  now: int, wallClock: int): (Tables, Outcome)
  {
    if nonce in s.nonces then
      if fp.auditWrite then (s, Thrown("FAILPOINT_auditWrite"))
      else (Audited(s, Entry(env, "NONCE_REPLAY_REJECTED", "REJECTED", "REPLAYED_NONCE")),
            Deny(RejectedKind, 200, "REPLAYED_NONCE", env))
    else if env.idempotencyKey !in s.idempotency then
      match verdict
      case Failure(refusal) => Refuse(s, fp, nonce, env, refusal, now)
      case Success(fields) => Accept(s, fp, nonce, env, fields, now)
    else
      var b := s.idempotency[env.idempotencyKey];
      if b.transferId != env.transferId || b.payloadHash != env.payloadHash then
        Quarantine(s, fp, nonce, env, "IDEMPOTENCY_KEY_CONFLICT", wallClock)
      else if !b.outcome.Accepted? then
        Replay(s, fp, nonce, env, b,
               Denial(b.errorCode, Some(env.transferId), Some(env.idempotencyKey), false, None), now)
      else if b.receiptId.None? || b.receiptId.value !in s.receipts then
        Quarantine(s, fp, nonce, env, "IDEMPOTENCY_RECEIPT_DIVERGENCE", wallClock)
      else
        Replay(s, fp, nonce, env, b, WireShape(s.receipts[b.receiptId.value]), now)
  }

  /**
   One request against the tables. `verdict` is what the business checks say of a valid envelope;
   `wallClock` is the second clock reading the quarantine path makes for itself.
   */
  function Process(s: Tables, fp: FailPoints, disabled: bool, r: Request, verdict: Verdict,
                   now: int, wallClock: int): (Tables, Outcome)
  {
    if disabled then (s, Thrown("PROCESSOR_DISABLED"))
    else
      match Screen(r, now)
      case Stop(outcome) => (s, outcome)
      case StopAudited(entry, outcome) => (BestEffortAudit(s, fp, entry), outcome)
      case Proceed(nonce, env) => Decide(s, fp, nonce, env, verdict, now, wallClock)
  }

  function VerdictFor(d: Directory, r: Request): Verdict {
    if r.body.Valid? then BusinessVerdict(d, r.body.envelope) else Success([])
  }

  // ----- The same, as the source does it -----

  method RunBusinessChecks(store: DurableStore, env: Envelope) returns (verdict: Verdict)
    ensures verdict == BusinessVerdict(store.CurrentDirectory(), env)
  {
    var d := store.CurrentDirectory();
    var authorizer := CheckAuthorizer(d, env);
    if authorizer.Some? { return Failure(Redaction.Refusal(authorizer.value, None)); }
    var mappings := CheckMappings(d, env);
    if mappings.Some? { return Failure(Redaction.Refusal(mappings.value, None)); }
    verdict := Redaction.EnforceDisclosurePolicy(Redaction.PolicyFor(env.subject.recordType), env.payload);
  }

  function FailureCode(e: StoreError): string {
    if e.TransferAlreadyProcessed? then "TRANSFER_ALREADY_PROCESSED" else "PROCESSOR_PERSISTENCE_FAILED"
  }

  method RecordPersistenceFailure(store: DurableStore, env: Envelope, error: StoreError)
    returns (out: Outcome)
    requires store.Valid()
    modifies store
    ensures store.Valid() && store.CurrentDirectory() == old(store.CurrentDirectory())
    ensures (store.Contents(), out) ==
            PersistenceFailed(old(store.Contents()), store.failPoints, env, FailureCode(error))
  {
    var code := FailureCode(error);
    var snapshot := store.TakeSnapshot();
    var appended := store.AppendAudit(Entry(env, "PROCESSOR_TRANSACTION_FAILED", "FAILED", code));
    if appended.Failure? { store.Restore(snapshot); }
    out := Deny(ErrorKind, 500, code, env);
  }

  /** The body of the refusal transaction. */
  method WriteRefusal(store: DurableStore, nonce: string, env: Envelope, code: string, now: int)
    returns (done: Result<(), StoreError>)
    requires store.Valid() && WellFormedNonce(nonce) && nonce !in store.nonces
    requires env.idempotencyKey !in store.idempotency
    modifies store
    ensures done.Success? ==>
              RefuseFailure(old(store.Contents()), store.failPoints, env, code, now) == None
              && store.Valid() && store.CurrentDirectory() == old(store.CurrentDirectory())
              && store.Contents() == RefusedTables(old(store.Contents()), nonce, env, code, now)
    ensures done.Failure? ==>
              RefuseFailure(old(store.Contents()), store.failPoints, env, code, now)
              == Some(FailureCode(done.error))
  {
    var status := StatusOfRefusal(code);
    var word := if status.Quarantined? then "QUARANTINED" else "REJECTED";
    var registered := store.RegisterNonce(nonce, env.transferId, now);
    assert registered.Success?;  // the replay check came first, and nothing ran in between
    var created := store.CreateDurableTransfer(RefusedRecord(env, code, now));
    if created.Failure? { return Failure(created.error); }
    var _ := store.BindIdempotencyKey(
      env.idempotencyKey, Binding(env.transferId, env.payloadHash, status, None, None, Some(code)));
    var appended := store.AppendAudit(Entry(env, "TRANSFER_" + word, word, code));
    if appended.Failure? { return Failure(appended.error); }
    done := Success(());
  }

  method RefuseTransfer(store: DurableStore, nonce: string, env: Envelope, refusal: Redaction.Refusal, now: int)
    returns (out: Outcome)
    requires store.Valid() && WellFormedNonce(nonce) && nonce !in store.nonces
    requires env.idempotencyKey !in store.idempotency
    modifies store
    ensures store.Valid() && store.CurrentDirectory() == old(store.CurrentDirectory())
    ensures (store.Contents(), out) ==
            Refuse(old(store.Contents()), store.failPoints, nonce, env, refusal, now)
  {
    var snapshot := store.TakeSnapshot();
    var done := WriteRefusal(store, nonce, env, refusal.code, now);
    if done.Failure? {
      store.Restore(snapshot);
      out := RecordPersistenceFailure(store, env, done.error);
      return;
    }
    var quarantined := StatusOfRefusal(refusal.code).Quarantined?;
    out := Responded(if quarantined then QuarantinedKind else RejectedKind, 200,
                     Denial(Some(refusal.code), Some(env.transferId), Some(env.idempotencyKey),
                            quarantined, refusal.violationPaths));
  }

  /** The body of the acceptance transaction: nonce, transfer, receipt, binding, audit. */
  method WriteAcceptance(store: DurableStore, nonce: string, env: Envelope, fields: seq<string>, now: int)
    returns (done: Result<(), StoreError>)
    requires store.Valid() && WellFormedNonce(nonce) && nonce !in store.nonces
    requires env.idempotencyKey !in store.idempotency
    modifies store
    ensures done.Success? ==>
              AcceptFailure(old(store.Contents()), store.failPoints, env, fields, now) == None
              && store.Valid() && store.CurrentDirectory() == old(store.CurrentDirectory())
              && store.Contents() == AcceptedTables(old(store.Contents()), nonce, env, fields, now)
    ensures done.Failure? ==>
              AcceptFailure(old(store.Contents()), store.failPoints, env, fields, now)
              == Some(FailureCode(done.error))
  {
    var receiptId := ReceiptIdFor(env.transferId);
    var registered := store.RegisterNonce(nonce, env.transferId, now);
    assert registered.Success?;  // the replay check came first, and nothing ran in between
    var created := store.CreateDurableTransfer(
      AcceptedRecord(env, fields, now));
    if created.Failure? { return Failure(created.error); }
    var receipted := store.CreateReceiptRecord(
      Receipt(receiptId, env.transferId, env.idempotencyKey, env.payloadHash, now, "PERSISTED"));
    if receipted.Failure? { return Failure(receipted.error); }
    var _ := store.BindIdempotencyKey(
      env.idempotencyKey,
      Binding(env.transferId, env.payloadHash, Accepted, Some(receiptId), Some(now), None));
    var appended := store.AppendAudit(Entry(env, "TRANSFER_ACCEPTED", "ACCEPTED", "ACCEPTED"));
    if appended.Failure? { return Failure(appended.error); }
    done := Success(());
  }

  method AcceptTransfer(store: DurableStore, nonce: string, env: Envelope, fields: seq<string>, now: int)
    returns (out: Outcome)
    requires store.Valid() && WellFormedNonce(nonce) && nonce !in store.nonces
    requires env.idempotencyKey !in store.idempotency
    modifies store
    ensures store.Valid() && store.CurrentDirectory() == old(store.CurrentDirectory())
    ensures (store.Contents(), out) ==
            Accept(old(store.Contents()), store.failPoints, nonce, env, fields, now)
  {
    var snapshot := store.TakeSnapshot();
    var done := WriteAcceptance(store, nonce, env, fields, now);
    if done.Failure? {
      store.Restore(snapshot);
      out := RecordPersistenceFailure(store, env, done.error);
      return;
    }
    out := Responded(AcceptedKind, 200, WireShape(store.receipts[ReceiptIdFor(env.transferId)]));
  }

  method WriteQuarantine(store: DurableStore, nonce: string, env: Envelope, code: string, wallClock: int)
    returns (done: Result<(), StoreError>)
    requires store.Valid() && WellFormedNonce(nonce) && nonce !in store.nonces
    modifies store
    ensures var s := old(store.Contents());
            var (s', out) := Quarantine(s, store.failPoints, nonce, env, code, wallClock);
            if done.Success? then store.Valid() && store.Contents() == s' && !out.kind.ErrorKind?
                                  && store.CurrentDirectory() == old(store.CurrentDirectory())
            else (s', out) == PersistenceFailed(s, store.failPoints, env, FailureCode(done.error))
  {
    var registered := store.RegisterNonce(nonce, env.transferId, wallClock);
    assert registered.Success?;  // the replay check came first, and nothing ran in between
    if env.transferId in store.transfers && store.transfers[env.transferId].payloadHash != env.payloadHash {
      var noted := store.AppendAudit(
        Entry(env, "TRANSFER_QUARANTINED", "QUARANTINED", "TRANSFER_CONTENT_CONFLICT"));
      if noted.Failure? { return Failure(noted.error); }
      return Success(());
    }
    var id := ConflictIdFor(env.transferId);
    var created := store.CreateDurableTransfer(
      TransferFor(env, id, Quarantined, None, wallClock, Some(code), []));
    if created.Failure? { return Failure(created.error); }
    var appended := store.AppendAudit(
      AuditEntry(Some(id), Some(env.idempotencyKey), "TRANSFER_QUARANTINED", "QUARANTINED", code));
    if appended.Failure? { return Failure(appended.error); }
    done := Success(());
  }

  method QuarantineIntegrityConflict(store: DurableStore, nonce: string, env: Envelope, code: string,
                                     wallClock: int)
    returns (out: Outcome)
    requires store.Valid() && WellFormedNonce(nonce) && nonce !in store.nonces
    modifies store
    ensures store.Valid() && store.CurrentDirectory() == old(store.CurrentDirectory())
    ensures (store.Contents(), out) ==
            Quarantine(old(store.Contents()), store.failPoints, nonce, env, code, wallClock)
  {
    var snapshot := store.TakeSnapshot();
    var done := WriteQuarantine(store, nonce, env, code, wallClock);
    if done.Failure? {
      store.Restore(snapshot);
      out := RecordPersistenceFailure(store, env, done.error);
      return;
    }
    out := Responded(QuarantinedKind, 200,
                     Denial(Some(code), Some(env.transferId), Some(env.idempotencyKey), true, None));
  }

  /** Collapses a duplicate. This transaction is not guarded: a failed write is thrown on. */
  method CollapseDuplicate(store: DurableStore, nonce: string, env: Envelope, b: Binding, reply: Reply, now: int)
    returns (out: Outcome)
    requires store.Valid() && WellFormedNonce(nonce) && nonce !in store.nonces
    modifies store
    ensures store.Valid() && store.CurrentDirectory() == old(store.CurrentDirectory())
    ensures (store.Contents(), out) ==
            Replay(old(store.Contents()), store.failPoints, nonce, env, b, reply, now)
  {
    var word := match b.outcome case Accepted => "ACCEPTED" case Rejected => "REJECTED"
                                 case Quarantined => "QUARANTINED";
    var code := if b.outcome.Accepted? then "DUPLICATE_COLLAPSED_TO_STORED_RECEIPT"
                else "DUPLICATE_COLLAPSED_TO_STORED_OUTCOME";
    var snapshot := store.TakeSnapshot();
    var registered := store.RegisterNonce(nonce, env.transferId, now);
    var appended := store.AppendAudit(Entry(env, "DUPLICATE_DELIVERY_COLLAPSED", word, code));
    if appended.Failure? {
      store.Restore(snapshot);
      return Thrown("FAILPOINT_auditWrite");
    }
    out := Responded(DuplicateKind, 200, reply);
  }

  method DecideRequest(store: DurableStore, nonce: string, env: Envelope, now: int, wallClock: int)
    returns (out: Outcome)
    requires store.Valid() && WellFormedNonce(nonce)
    modifies store
    ensures store.Valid() && store.CurrentDirectory() == old(store.CurrentDirectory())
    ensures (store.Contents(), out) ==
            Decide(old(store.Contents()), store.failPoints, nonce, env,
                   BusinessVerdict(old(store.CurrentDirectory()), env), now, wallClock)
  {
    if nonce in store.nonces {
      var snapshot := store.TakeSnapshot();
      var appended := store.AppendAudit(
        Entry(env, "NONCE_REPLAY_REJECTED", "REJECTED", "REPLAYED_NONCE"));
      if appended.Failure? {
        store.Restore(snapshot);
        return Thrown("FAILPOINT_auditWrite");
      }
      return Deny(RejectedKind, 200, "REPLAYED_NONCE", env);
    }
    var resolved := store.ResolveIdempotencyKey(env.idempotencyKey, env.transferId, env.payloadHash);
    if resolved.Failure? {
      out := QuarantineIntegrityConflict(store, nonce, env, "IDEMPOTENCY_KEY_CONFLICT", wallClock);
      return;
    }
    if resolved.value.Some? {
      var b := resolved.value.value;
      if b.outcome.Accepted? {
        if b.receiptId.None? || b.receiptId.value !in store.receipts {
          out := QuarantineIntegrityConflict(store, nonce, env, "IDEMPOTENCY_RECEIPT_DIVERGENCE", wallClock);
          return;
        }
        out := CollapseDuplicate(store, nonce, env, b, WireShape(store.receipts[b.receiptId.value]), now);
        return;
      }
      out := CollapseDuplicate(store, nonce, env, b,
        Denial(b.errorCode, Some(env.transferId), Some(env.idempotencyKey), false, None), now);
      return;
    }
    var verdict := RunBusinessChecks(store, env);
    match verdict {
      case Failure(refusal) => out := RefuseTransfer(store, nonce, env, refusal, now);
      case Success(fields) => out := AcceptTransfer(store, nonce, env, fields, now);
    }
  }

  /** Table-by-table writes with rollback amount to the one atomic step `Process`. */
  method ProcessTransferRequest(store: DurableStore, disabled: bool, r: Request, now: int, wallClock: int)
    returns (out: Outcome)
    requires store.Valid()
    modifies store
    ensures store.Valid() && store.CurrentDirectory() == old(store.CurrentDirectory())
    ensures (store.Contents(), out) ==
            Process(old(store.Contents()), store.failPoints, disabled, r,
                    VerdictFor(old(store.CurrentDirectory()), r), now, wallClock)
  {
    if disabled { return Thrown("PROCESSOR_DISABLED"); }
    match Screen(r, now) {
      case Stop(outcome) =>
        out := outcome;
      case StopAudited(entry, outcome) =>
        var snapshot := store.TakeSnapshot();
        var appended := store.AppendAudit(entry);
        if appended.Failure? { store.Restore(snapshot); }
        out := outcome;
      case Proceed(nonce, env) =>
        out := DecideRequest(store, nonce, env, now, wallClock);
    }
  }
}
