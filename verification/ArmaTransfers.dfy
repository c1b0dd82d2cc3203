/**
 ARMA's outbound transfers (law-shield/arma/transferService.js over persistence.js).

 `send` is split at its one await: BeginSend runs up to the fetch, CompleteSend from the moment
 the fetch settles. The record a call holds is the stored one, so CompleteSend reads it afresh.
 The hash chain is kept as the list of events it hashes.
 */
module ArmaTransfers {
  import opened Wrappers
  import opened ReceiptVerifier
  import Json
  import Redaction

  datatype Status =
    | Draft | PendingAuthorization | Authorized | ReadyToSend | Sent | ReceiptVerified
    | Accepted | Rejected | ReconciliationRequired

  datatype ChainEvent = ChainEvent(eventType: string, transferId: string, payloadHash: Option<string>, at: int)

  datatype Record = Record(transferId: string, idempotencyKey: string, armaOrgId: string,
                           lawShieldOrgId: Option<string>, incidentId: Option<string>,
                           lawShieldCaseId: Option<string>, recordType: string, recordId: string,
                           payload: seq<Json.Field>, minimumNecessaryFields: seq<string>,
                           redactedFields: seq<string>, status: Status,
                           authorizedBy: Option<string>, payloadHash: Option<string>,
                           sentAt: Option<int>, receiptId: Option<string>, lastErrorCode: Option<string>,
                           retryCount: nat, nextRetryAt: Option<int>, eventSequence: nat,
                           chain: seq<ChainEvent>)

  datatype Authorization = Authorization(armaOrgId: string, authorizedBy: string, reason: string,
                                         minimumNecessaryFields: seq<string>,
                                         redactedFields: seq<string>)

  datatype Resolution = Open | Resolved | Quarantined

  datatype Reconciliation = Reconciliation(expectedPayloadHash: Option<string>,
                                           expectedDestination: Option<string>,
                                           discrepancyCode: string, resolution: Resolution,
                                           resolver: Option<string>)

  datatype AuditEvent = AuditEvent(transferId: string, eventType: string, code: Option<string>)

  datatype User = User(orgId: string, roles: set<string>, human: bool)
  datatype OrgMapping = OrgMapping(lawShieldOrgId: string, active: bool)
  datatype CaseMapping = CaseMapping(lawShieldOrgId: string, lawShieldCaseId: string, active: bool)

  /** Who may act and which organisations and cases are linked. Changed by administrators only. */
  datatype Directory = Directory(users: map<string, User>, orgMappings: map<string, OrgMapping>,
                                 caseMappings: map<(string, string), CaseMapping>)

  datatype State = State(transfers: map<string, Record>, byKey: map<string, string>,
                         authorizations: map<string, Authorization>,
                         reconciliations: map<string, Reconciliation>, audit: seq<AuditEvent>,
                         sequence: nat)

  const EMPTY := State(map[], map[], map[], map[], [], 0)
  const AUTHORIZER_ROLE := "LAW_SHIELD_DISCLOSURE_AUTHORIZER"

  function Noted(s: State, transferId: string, eventType: string, code: Option<string>): State {
    s.(audit := s.audit + [AuditEvent(transferId, eventType, code)])
  }

  function Put(s: State, r: Record): State {
    s.(transfers := s.transfers[r.transferId := r])
  }

  /** Links one more event to the record's chain. */
  function Chained(r: Record, eventType: string, payloadHash: Option<string>, at: int): Record {
    r.(eventSequence := r.eventSequence + 1,
       chain := r.chain + [ChainEvent(eventType, r.transferId, payloadHash, at)])
  }

  function Truthy(s: Option<string>): bool {
    s.Some? && s.value != ""
  }

  // ----- createDraft -----

  datatype DraftRequest = DraftRequest(transferId: string, idempotencyKey: string, armaOrgId: string,
                                       lawShieldOrgId: Option<string>, incidentId: Option<string>,
                                       recordType: string, recordId: string, rawPayload: Json.Value)

  function HumanError(d: Directory, actor: string): Option<string> {
    if actor !in d.users then Some("ACTOR_NOT_AUTHENTICATED")
    else if !d.users[actor].human then Some("AI_CANNOT_AUTHORIZE_TRANSFER")
    else None
  }

  function DraftError(s: State, d: Directory, disabled: bool, actor: string, q: DraftRequest): Option<string> {
    if disabled then Some("ARMA_OUTBOUND_DISABLED")
    else if HumanError(d, actor).Some? then HumanError(d, actor)
    else if Redaction.PolicyFor(q.recordType).None? then Some("REDACTION_POLICY_MISSING")
    else if !q.rawPayload.Obj? then Some("REDACTION_INVALID_PAYLOAD")
    else if q.idempotencyKey in s.byKey then Some("DUPLICATE_IDEMPOTENCY_KEY")
    else None
  }

  function DraftRecord(s: State, q: DraftRequest, redacted: Redaction.Redacted): Record {
    Record(q.transferId, q.idempotencyKey, q.armaOrgId, q.lawShieldOrgId, q.incidentId, None,
           q.recordType, q.recordId, redacted.payload, redacted.minimumNecessaryFields,
           redacted.redactedFields, Draft, None, None, None, None, None, 0, None, s.sequence + 1, [])
  }

  function RedactionOf(q: DraftRequest): Redaction.Redacted
    requires Redaction.PolicyFor(q.recordType).Some? && q.rawPayload.Obj?
  {
    var p := Redaction.PolicyFor(q.recordType).value;
    Redaction.Redacted(Redaction.RedactedFields(p, q.rawPayload.fields),
                       Redaction.KeptNames(p, q.rawPayload.fields),
                       Redaction.RedactionLog(p, q.rawPayload.fields))
  }

  /** The id is not checked: a second draft under a used transfer id replaces the first. */
  function WithDraft(s: State, q: DraftRequest, redacted: Redaction.Redacted): State {
    var s' := Put(s, DraftRecord(s, q, redacted));
    Noted(s'.(byKey := s.byKey[q.idempotencyKey := q.transferId], sequence := s.sequence + 1),
          q.transferId, "TRANSFER_DRAFT_CREATED", None)
  }

  function CreateDraft(s: State, d: Directory, disabled: bool, actor: string, q: DraftRequest): State {
    if DraftError(s, d, disabled, actor, q).Some? then s else WithDraft(s, q, RedactionOf(q))
  }

  // ----- authorize -----

  function AuthorizationError(d: Directory, actor: string, r: Record, reasonLength: nat): Option<string> {
    if HumanError(d, actor).Some? then HumanError(d, actor)
    else if AUTHORIZER_ROLE !in d.users[actor].roles then Some("ACTOR_MISSING_AUTHORIZER_ROLE")
    else if d.users[actor].orgId != r.armaOrgId then Some("ACTOR_NOT_IN_TRANSFER_ORG")
    else if r.armaOrgId !in d.orgMappings then Some("ORG_MAPPING_MISSING")
    else if !d.orgMappings[r.armaOrgId].active then Some("ORG_MAPPING_INACTIVE")
    else
      var caseError := if Truthy(r.incidentId)
                       then AuthorizationCaseError(d, (r.armaOrgId, r.incidentId.value), r.lawShieldOrgId)
                       else None;
      if caseError.Some? then caseError
      else if reasonLength == 0 then Some("AUTHORIZATION_REASON_REQUIRED")
      else if reasonLength < 10 then Some("AUTHORIZATION_REASON_TOO_SHORT")
      else None
  }

  function AuthorizationCaseError(d: Directory, key: (string, string), destination: Option<string>): Option<string> {
    if key !in d.caseMappings then Some("CASE_MAPPING_MISSING")
    else if !d.caseMappings[key].active then Some("CASE_MAPPING_INACTIVE")
    else if Some(d.caseMappings[key].lawShieldOrgId) != destination then Some("CASE_MAPPING_TENANT_MISMATCH")
    else None
  }

  /** `reasonLength` is the length of the reason once trimmed. */
  function AuthorizeError(s: State, d: Directory, disabled: bool, actor: string, id: string,
                          reasonLength: nat): Option<string>
  {
    if disabled then Some("ARMA_OUTBOUND_DISABLED")
    else if id !in s.transfers then Some("TRANSFER_NOT_FOUND")
    else if s.transfers[id].status !in {Draft, PendingAuthorization} then Some("INVALID_STATE_TRANSITION")
    else AuthorizationError(d, actor, s.transfers[id], reasonLength)
  }

  function Authorize(s: State, d: Directory, disabled: bool, actor: string, id: string, reason: string,
                     reasonLength: nat, at: int): State
  {
    if AuthorizeError(s, d, disabled, actor, id, reasonLength).Some? then s
    else
      var r := s.transfers[id];
      var authorization := Authorization(r.armaOrgId, actor, reason, r.minimumNecessaryFields, r.redactedFields);
      var r' := Chained(r, "TRANSFER_AUTHORIZED", r.payloadHash, at)
                  .(status := Authorized, authorizedBy := Some(actor));
      Noted(s.(authorizations := s.authorizations[id := authorization], transfers := s.transfers[id := r']),
            id, "TRANSFER_AUTHORIZED", None)
  }

  // ----- ready -----

  function ReadyError(s: State, d: Directory, disabled: bool, id: string, destination: Option<string>,
                      caseId: Option<string>): Option<string>
  {
    if disabled then Some("ARMA_OUTBOUND_DISABLED")
    else if id !in s.transfers then Some("TRANSFER_NOT_FOUND")
    else if s.transfers[id].status != Authorized then Some("INVALID_STATE_TRANSITION")
    else
      var r := s.transfers[id];
      var target := if destination.Some? then destination else r.lawShieldOrgId;
      if !Truthy(target) then Some("LAW_SHIELD_ORG_REQUIRED")
      else if r.armaOrgId !in d.orgMappings || !d.orgMappings[r.armaOrgId].active then Some("ORG_MAPPING_MISSING")
      else if d.orgMappings[r.armaOrgId].lawShieldOrgId != target.value then Some("ORG_MAPPING_MISMATCH")
      else if !Truthy(r.incidentId) then None
      else
        var key := (r.armaOrgId, r.incidentId.value);
        if key !in d.caseMappings || !d.caseMappings[key].active then Some("CASE_MAPPING_REQUIRED")
        else if d.caseMappings[key].lawShieldOrgId != target.value then Some("CASE_MAPPING_TENANT_MISMATCH")
        else if d.caseMappings[key].lawShieldCaseId == "" then Some("CASE_MAPPING_REQUIRED")
        else None
  }

  function Ready(s: State, d: Directory, disabled: bool, id: string, destination: Option<string>,
                 caseId: Option<string>, at: int): State
  {
    if ReadyError(s, d, disabled, id, destination, caseId).Some? then s
    else
      var r := s.transfers[id];
      var target := if destination.Some? then destination else r.lawShieldOrgId;
      var chosen := if Truthy(r.incidentId) then Some(d.caseMappings[(r.armaOrgId, r.incidentId.value)].lawShieldCaseId)
                    else if caseId.Some? then caseId else r.lawShieldCaseId;
      var r' := Chained(r, "TRANSFER_READY_TO_SEND", r.payloadHash, at)
                  .(lawShieldOrgId := target, lawShieldCaseId := chosen, status := ReadyToSend);
      Noted(s.(transfers := s.transfers[id := r']), id, "TRANSFER_READY_TO_SEND", None)
  }

  // ----- send, up to the fetch -----

  /** What leaves ARMA. */
  datatype Outbound = Outbound(transferId: string, idempotencyKey: string, armaOrgId: string,
                               lawShieldOrgId: string, incidentId: Option<string>,
                               lawShieldCaseId: Option<string>, recordType: string, recordId: string,
                               authorizedBy: string, payload: seq<Json.Field>, payloadHash: string,
                               sentAt: int)

  function OrEmpty(s: Option<string>): string {
    if s.Some? then s.value else ""
  }

  function OutboundOf(r: Record, hash: seq<Json.Field> -> string, at: int): Outbound {
    Outbound(r.transferId, r.idempotencyKey, r.armaOrgId, OrEmpty(r.lawShieldOrgId), r.incidentId,
             r.lawShieldCaseId, r.recordType, r.recordId, OrEmpty(r.authorizedBy), r.payload,
             hash(r.payload), at)
  }

  /** The builder's required strings; `screening` is what its remaining checks object to. */
  function BuildError(o: Outbound, screening: Option<string>): Option<string> {
    if o.transferId == "" then Some("INVALID_FIELD_transferId")
    else if o.idempotencyKey == "" then Some("INVALID_FIELD_idempotencyKey")
    else if o.armaOrgId == "" then Some("INVALID_FIELD_armaOrgId")
    else if o.lawShieldOrgId == "" then Some("INVALID_FIELD_lawShieldOrgId")
    else if o.recordType == "" then Some("INVALID_FIELD_recordType")
    else if o.recordId == "" then Some("INVALID_FIELD_recordId")
    else if o.authorizedBy == "" then Some("INVALID_FIELD_authorizedBy")
    else if o.payloadHash == "" then Some("PAYLOAD_HASH_MISMATCH")
    else screening
  }

  function SendError(s: State, hash: seq<Json.Field> -> string, disabled: bool, id: string, at: int,
                     screening: Option<string>): Option<string>
  {
    if disabled then Some("ARMA_OUTBOUND_DISABLED")
    else if id !in s.transfers then Some("TRANSFER_NOT_FOUND")
    else if s.transfers[id].status != ReadyToSend then Some("INVALID_STATE_TRANSITION")
    else BuildError(OutboundOf(s.transfers[id], hash, at), screening)
  }

  function WithSend(s: State, hash: seq<Json.Field> -> string, id: string, at: int): State
    requires id in s.transfers
  {
    var r := s.transfers[id];
    var digest := Some(hash(r.payload));
    var r' := Chained(r, "TRANSFER_SENT", digest, at).(status := Sent, payloadHash := digest, sentAt := Some(at));
    Noted(s.(transfers := s.transfers[id := r']), id, "TRANSFER_SENT", None)
  }

  // ----- send, from the moment the fetch settles -----

  /** How the fetch settled: it threw (by timeout or otherwise), or some response was read. */
  datatype Answer =
    | Failed(timedOut: bool)
    | Receipt(wire: ReceiptWire)
    | Refused(status: nat, error: Option<string>, retryable: bool)

  /** What ARMA makes of it. */
  datatype Disposition =
    | Confirmed(receipt: GatewayReceipt)
    | Doubtful(code: string)
    | Retried(code: string, delayMs: int)
    | Terminal(code: string)

  function ExpectedOf(o: Outbound): Expected {
    Expected(o.transferId, o.idempotencyKey, o.armaOrgId, o.lawShieldOrgId, o.payloadHash,
             o.recordType, o.recordId)
  }

  function RetryOrGiveUp(code: string, retryCount: nat): Disposition {
    match ComputeBackoff(retryCount)
    case None => Terminal("MAX_RETRIES_EXCEEDED")
    case Some(delayMs) => Retried(code, delayMs)
  }

  /** One table for all that the two failure recorders and the receipt check decide. */
  function Disposed(a: Answer, o: Outbound, retryCount: nat): Disposition {
    match a
    case Failed(timedOut) =>
      if timedOut then Doubtful("PROCESSOR_TIMEOUT") else RetryOrGiveUp("PROCESSOR_UNAVAILABLE", retryCount)
    case Receipt(wire) =>
      (match VerifyReceipt(wire, ExpectedOf(o))
       case Success(receipt) => Confirmed(receipt)
       case Failure(code) => Doubtful(code))
    case Refused(status, error, retryable) =>
      var c := ClassifyGatewayFailure(status, error, retryable);
      if c.ambiguous then Doubtful(c.code)
      else if c.cleanRetryable then RetryOrGiveUp(c.code, retryCount)
      else Terminal(c.code)
  }

  /** Opens a reconciliation unless one is open already. */
  function Opened(s: State, id: string, hash: Option<string>, destination: Option<string>, code: string): State {
    if id in s.reconciliations && s.reconciliations[id].resolution.Open? then s
    else s.(reconciliations := s.reconciliations[id := Reconciliation(hash, destination, code, Open, None)])
  }

  function Settled(s: State, id: string, o: Outbound, disposition: Disposition, at: int): State
    requires id in s.transfers
  {
    var r := s.transfers[id];
    match disposition
    case Confirmed(receipt) =>
      var digest := Some(o.payloadHash);
      var r' := Chained(Chained(r, "TRANSFER_RECEIPT_VERIFIED", digest, at), "TRANSFER_ACCEPTED", digest, at)
                  .(status := Accepted, receiptId := Some(receipt.receiptId));
      Noted(Noted(s.(transfers := s.transfers[id := r']), id, "TRANSFER_RECEIPT_VERIFIED", None),
            id, "TRANSFER_ACCEPTED", None)
    case Doubtful(code) =>
      var r' := r.(status := ReconciliationRequired, lastErrorCode := Some(code), retryCount := r.retryCount + 1);
      Noted(Opened(s.(transfers := s.transfers[id := r']), id, Some(o.payloadHash), r.lawShieldOrgId, code),
            id, "TRANSFER_RECONCILIATION_OPENED", Some(code))
    case Retried(code, delayMs) =>
      var r' := r.(status := ReadyToSend, lastErrorCode := Some(code), nextRetryAt := Some(at + delayMs),
                   retryCount := r.retryCount + 1);
      Noted(s.(transfers := s.transfers[id := r']), id, "TRANSFER_RETRY_SCHEDULED", Some(code))
    case Terminal(code) =>
      var r' := r.(status := Rejected, lastErrorCode := Some(code));
      Noted(s.(transfers := s.transfers[id := r']), id, "TRANSFER_REJECTED", Some(code))
  }

  // ----- reject, resolveReconciliation -----

  function RejectError(s: State, d: Directory, actor: string, id: string): Option<string> {
    if id !in s.transfers then Some("TRANSFER_NOT_FOUND")
    else if HumanError(d, actor).Some? then HumanError(d, actor)
    else if s.transfers[id].status !in {Draft, PendingAuthorization, Authorized, ReadyToSend, ReconciliationRequired}
    then Some("INVALID_STATE_TRANSITION")
    else None
  }

  function Reject(s: State, d: Directory, actor: string, id: string, reason: string, at: int): State {
    if RejectError(s, d, actor, id).Some? then s
    else
      var r := s.transfers[id];
      var r' := Chained(r, "TRANSFER_REJECTED", r.payloadHash, at)
                  .(status := Rejected, lastErrorCode := Some(reason));
      Noted(s.(transfers := s.transfers[id := r']), id, "TRANSFER_REJECTED", Some(reason))
  }

  function ResolveError(s: State, d: Directory, actor: string, id: string, noteLength: nat,
                        resolution: Resolution): Option<string>
  {
    if actor !in d.users then Some("ACTOR_NOT_AUTHENTICATED")
    else if !d.users[actor].human then Some("AI_CANNOT_RESOLVE_RECONCILIATION")
    else if AUTHORIZER_ROLE !in d.users[actor].roles then Some("ACTOR_MISSING_AUTHORIZER_ROLE")
    else if id !in s.transfers then Some("TRANSFER_NOT_FOUND")
    else if d.users[actor].orgId != s.transfers[id].armaOrgId then Some("ACTOR_NOT_IN_TRANSFER_ORG")
    else if resolution.Open? then Some("INVALID_RESOLUTION_STATUS")
    else if noteLength < 10 then Some("RESOLUTION_NOTE_TOO_SHORT")
    else if id !in s.reconciliations then Some("RECONCILIATION_NOT_FOUND")
    else if s.reconciliations[id].resolution.Resolved? then Some("RECONCILIATION_ALREADY_RESOLVED")
    else None
  }

  function Resolve(s: State, d: Directory, actor: string, id: string, noteLength: nat,
                   resolution: Resolution): State
  {
    if ResolveError(s, d, actor, id, noteLength, resolution).Some? then s
    else s.(reconciliations := s.reconciliations[id :=
              s.reconciliations[id].(resolution := resolution, resolver := Some(actor))])
  }

  // ----- The service, writing its tables as it goes -----

  class ArmaTransferService {
    var transfers: map<string, Record>
    var transfersByIdempotency: map<string, string>
    var authorizations: map<string, Authorization>
    var reconciliation: map<string, Reconciliation>
    var audit: seq<AuditEvent>
    var sequence: nat
    var directory: Directory
    const hash: seq<Json.Field> -> string

    function Current(): State
      reads this
    {
      State(transfers, transfersByIdempotency, authorizations, reconciliation, audit, sequence)
    }

    constructor (directory: Directory, hash: seq<Json.Field> -> string)
      ensures Current() == EMPTY && this.directory == directory && this.hash == hash
    {
      transfers, transfersByIdempotency := map[], map[];
      authorizations, reconciliation := map[], map[];
      audit, sequence := [], 0;
      this.directory := directory;
      this.hash := hash;
    }

    method AppendAudit(transferId: string, eventType: string, code: Option<string>)
      modifies this`audit
      ensures Current() == Noted(old(Current()), transferId, eventType, code)
    {
      audit := audit + [AuditEvent(transferId, eventType, code)];
    }

    method CreateTransfer(q: DraftRequest, redacted: Redaction.Redacted) returns (r: Result<Record, string>)
      modifies this`transfers, this`transfersByIdempotency, this`sequence
      ensures r.Failure? <==> q.idempotencyKey in old(transfersByIdempotency)
      ensures r.Failure? ==> Current() == old(Current()) && r.error == "DUPLICATE_IDEMPOTENCY_KEY"
      ensures r.Success? ==> r.value == DraftRecord(old(Current()), q, redacted)
                             && Noted(Current(), q.transferId, "TRANSFER_DRAFT_CREATED", None)
                                == WithDraft(old(Current()), q, redacted)
    {
      if q.idempotencyKey in transfersByIdempotency {
        return Failure("DUPLICATE_IDEMPOTENCY_KEY");
      }
      var record := DraftRecord(Current(), q, redacted);
      sequence := sequence + 1;
      transfers := transfers[q.transferId := record];
      transfersByIdempotency := transfersByIdempotency[q.idempotencyKey := q.transferId];
      r := Success(record);
    }

    method CreateDraftTransfer(disabled: bool, actor: string, q: DraftRequest) returns (r: Result<Record, string>)
      modifies this`transfers, this`transfersByIdempotency, this`sequence, this`audit
      ensures Current() == CreateDraft(old(Current()), directory, disabled, actor, q)
      ensures match DraftError(old(Current()), directory, disabled, actor, q)
              case Some(code) => r == Failure(code)
              case None => r.Success? && q.transferId in transfers && r.value == transfers[q.transferId]
    {
      if disabled { return Failure("ARMA_OUTBOUND_DISABLED"); }
      if actor !in directory.users { return Failure("ACTOR_NOT_AUTHENTICATED"); }
      if !directory.users[actor].human { return Failure("AI_CANNOT_AUTHORIZE_TRANSFER"); }
      var redacted := Redaction.RedactPayload(Redaction.PolicyFor(q.recordType), q.rawPayload);
      if redacted.Failure? { return Failure(redacted.error); }
      r := CreateTransfer(q, redacted.value);
      if r.Success? { AppendAudit(q.transferId, "TRANSFER_DRAFT_CREATED", None); }
    }

    method AuthorizeTransfer(disabled: bool, actor: string, id: string, reason: string, reasonLength: nat, at: int)
      returns (r: Result<Record, string>)
      modifies this`transfers, this`authorizations, this`audit
      ensures Current() == Authorize(old(Current()), directory, disabled, actor, id, reason, reasonLength, at)
      ensures match AuthorizeError(old(Current()), directory, disabled, actor, id, reasonLength)
              case Some(code) => r == Failure(code)
              case None => r == Success(transfers[id])
    {
      if disabled { return Failure("ARMA_OUTBOUND_DISABLED"); }
      if id !in transfers { return Failure("TRANSFER_NOT_FOUND"); }
      var t := transfers[id];
      if t.status != Draft && t.status != PendingAuthorization { return Failure("INVALID_STATE_TRANSITION"); }
      var denial := AuthorizationError(directory, actor, t, reasonLength);
      if denial.Some? { return Failure(denial.value); }
      authorizations := authorizations[id := Authorization(t.armaOrgId, actor, reason,
                                                           t.minimumNecessaryFields, t.redactedFields)];
      transfers := transfers[id := Chained(t, "TRANSFER_AUTHORIZED", t.payloadHash, at)
                                     .(status := Authorized, authorizedBy := Some(actor))];
      AppendAudit(id, "TRANSFER_AUTHORIZED", None);
      r := Success(transfers[id]);
    }

    method MarkReady(disabled: bool, id: string, destination: Option<string>, caseId: Option<string>, at: int)
      returns (r: Result<Record, string>)
      modifies this`transfers, this`audit
      ensures Current() == Ready(old(Current()), directory, disabled, id, destination, caseId, at)
      ensures match ReadyError(old(Current()), directory, disabled, id, destination, caseId)
              case Some(code) => r == Failure(code)
              case None => r == Success(transfers[id])
    {
      if disabled { return Failure("ARMA_OUTBOUND_DISABLED"); }
      if id !in transfers { return Failure("TRANSFER_NOT_FOUND"); }
      var t := transfers[id];
      if t.status != Authorized { return Failure("INVALID_STATE_TRANSITION"); }
      var target := if destination.Some? then destination else t.lawShieldOrgId;
      if !Truthy(target) { return Failure("LAW_SHIELD_ORG_REQUIRED"); }
      if t.armaOrgId !in directory.orgMappings || !directory.orgMappings[t.armaOrgId].active {
        return Failure("ORG_MAPPING_MISSING");
      }
      if directory.orgMappings[t.armaOrgId].lawShieldOrgId != target.value { return Failure("ORG_MAPPING_MISMATCH"); }
      var chosen := if caseId.Some? then caseId else t.lawShieldCaseId;
      if Truthy(t.incidentId) {
        var key := (t.armaOrgId, t.incidentId.value);
        if key !in directory.caseMappings || !directory.caseMappings[key].active {
          return Failure("CASE_MAPPING_REQUIRED");
        }
        if directory.caseMappings[key].lawShieldOrgId != target.value {
          return Failure("CASE_MAPPING_TENANT_MISMATCH");
        }
        chosen := Some(directory.caseMappings[key].lawShieldCaseId);
        if !Truthy(chosen) { return Failure("CASE_MAPPING_REQUIRED"); }
      }
      transfers := transfers[id := Chained(t, "TRANSFER_READY_TO_SEND", t.payloadHash, at)
                                     .(lawShieldOrgId := target, lawShieldCaseId := chosen, status := ReadyToSend)];
      AppendAudit(id, "TRANSFER_READY_TO_SEND", None);
      r := Success(transfers[id]);
    }

    /** `send` up to the fetch: the record is durably SENT before anything leaves. */
    method BeginSend(disabled: bool, id: string, at: int, screening: Option<string>)
      returns (r: Result<Outbound, string>)
      modifies this`transfers, this`audit
      ensures match SendError(old(Current()), hash, disabled, id, at, screening)
              case Some(code) => r == Failure(code) && Current() == old(Current())
              case None => r == Success(OutboundOf(old(transfers)[id], hash, at))
                           && Current() == WithSend(old(Current()), hash, id, at)
    {
      if disabled { return Failure("ARMA_OUTBOUND_DISABLED"); }
      if id !in transfers { return Failure("TRANSFER_NOT_FOUND"); }
      var t := transfers[id];
      if t.status != ReadyToSend { return Failure("INVALID_STATE_TRANSITION"); }
      var outbound := OutboundOf(t, hash, at);
      var invalid := BuildError(outbound, screening);
      if invalid.Some? { return Failure(invalid.value); }
      transfers := transfers[id := Chained(t, "TRANSFER_SENT", Some(outbound.payloadHash), at)
                                     .(status := Sent, payloadHash := Some(outbound.payloadHash),
                                       sentAt := Some(at))];
      AppendAudit(id, "TRANSFER_SENT", None);
      r := Success(outbound);
    }

    method OpenReconciliation(id: string, hash: Option<string>, destination: Option<string>, code: string)
      modifies this`reconciliation
      ensures Current() == Opened(old(Current()), id, hash, destination, code)
    {
      if id in reconciliation && reconciliation[id].resolution.Open? { return; }
      reconciliation := reconciliation[id := Reconciliation(hash, destination, code, Open, None)];
    }

    method RequireReconciliation(id: string, o: Outbound, code: string)
      requires id in transfers
      modifies this`transfers, this`reconciliation, this`audit
      ensures Current() == Settled(old(Current()), id, o, Doubtful(code), 0)
    {
      var t := transfers[id];
      transfers := transfers[id := t.(status := ReconciliationRequired, lastErrorCode := Some(code),
                                      retryCount := t.retryCount + 1)];
      OpenReconciliation(id, Some(o.payloadHash), t.lawShieldOrgId, code);
      AppendAudit(id, "TRANSFER_RECONCILIATION_OPENED", Some(code));
    }

    /** A clean failure: schedule the next attempt, or give up when the schedule is exhausted. */
    method ScheduleRetry(id: string, o: Outbound, code: string, at: int)
      requires id in transfers
      modifies this`transfers, this`audit
      ensures Current() == Settled(old(Current()), id, o, RetryOrGiveUp(code, old(transfers)[id].retryCount), at)
    {
      var t := transfers[id];
      var backoff := ComputeBackoff(t.retryCount);
      if backoff.None? {
        transfers := transfers[id := t.(status := Rejected, lastErrorCode := Some("MAX_RETRIES_EXCEEDED"))];
        AppendAudit(id, "TRANSFER_REJECTED", Some("MAX_RETRIES_EXCEEDED"));
        return;
      }
      transfers := transfers[id := t.(status := ReadyToSend, lastErrorCode := Some(code),
                                      nextRetryAt := Some(at + backoff.value), retryCount := t.retryCount + 1)];
      AppendAudit(id, "TRANSFER_RETRY_SCHEDULED", Some(code));
    }

    method RecordTransportFailure(id: string, o: Outbound, timedOut: bool, at: int)
      requires id in transfers
      modifies this`transfers, this`reconciliation, this`audit
      ensures Current() == Settled(old(Current()), id, o,
                                   Disposed(Failed(timedOut), o, old(transfers)[id].retryCount), at)
    {
      if timedOut {
        RequireReconciliation(id, o, "PROCESSOR_TIMEOUT");
        return;
      }
      ScheduleRetry(id, o, "PROCESSOR_UNAVAILABLE", at);
    }

    method RecordGatewayFailure(id: string, o: Outbound, status: nat, error: Option<string>, retryable: bool, at: int)
      requires id in transfers
      modifies this`transfers, this`reconciliation, this`audit
      ensures Current() == Settled(old(Current()), id, o,
                                   Disposed(Refused(status, error, retryable), o, old(transfers)[id].retryCount), at)
    {
      var c := ClassifyGatewayFailure(status, error, retryable);
      if c.ambiguous {
        RequireReconciliation(id, o, c.code);
        return;
      }
      if CanAutoRetry(c) {
        ScheduleRetry(id, o, c.code, at);
        return;
      }
      transfers := transfers[id := transfers[id].(status := Rejected, lastErrorCode := Some(c.code))];
      AppendAudit(id, "TRANSFER_REJECTED", Some(c.code));
    }

    method RecordReceipt(id: string, o: Outbound, wire: ReceiptWire, at: int)
      requires id in transfers
      modifies this`transfers, this`reconciliation, this`audit
      ensures Current() == Settled(old(Current()), id, o,
                                   Disposed(Receipt(wire), o, old(transfers)[id].retryCount), at)
    {
      var verified := VerifyReceipt(wire, ExpectedOf(o));
      if verified.Failure? {
        RequireReconciliation(id, o, verified.error);
        return;
      }
      var t := transfers[id];
      var digest := Some(o.payloadHash);
      transfers := transfers[id := Chained(Chained(t, "TRANSFER_RECEIPT_VERIFIED", digest, at),
                                           "TRANSFER_ACCEPTED", digest, at)
                                     .(status := ReceiptVerified, receiptId := Some(verified.value.receiptId))];
      AppendAudit(id, "TRANSFER_RECEIPT_VERIFIED", None);
      AppendAudit(id, "TRANSFER_ACCEPTED", None);
      transfers := transfers[id := transfers[id].(status := Accepted)];
    }

    /** `send` after the fetch: whatever happened is recorded, nothing is thrown. */
    method CompleteSend(id: string, o: Outbound, answer: Answer, at: int)
      requires id in transfers
      modifies this`transfers, this`reconciliation, this`audit
      ensures Current() == Settled(old(Current()), id, o, Disposed(answer, o, old(transfers)[id].retryCount), at)
    {
      match answer {
        case Failed(timedOut) => RecordTransportFailure(id, o, timedOut, at);
        case Receipt(wire) => RecordReceipt(id, o, wire, at);
        case Refused(status, error, retryable) => RecordGatewayFailure(id, o, status, error, retryable, at);
      }
    }

    method RejectTransfer(actor: string, id: string, reason: string, at: int) returns (r: Result<Record, string>)
      modifies this`transfers, this`audit
      ensures Current() == Reject(old(Current()), directory, actor, id, reason, at)
      ensures match RejectError(old(Current()), directory, actor, id)
              case Some(code) => r == Failure(code)
              case None => r == Success(transfers[id])
    {
      if id !in transfers { return Failure("TRANSFER_NOT_FOUND"); }
      var t := transfers[id];
      if actor !in directory.users { return Failure("ACTOR_NOT_AUTHENTICATED"); }
      if !directory.users[actor].human { return Failure("AI_CANNOT_AUTHORIZE_TRANSFER"); }
      if t.status !in {Draft, PendingAuthorization, Authorized, ReadyToSend, ReconciliationRequired} {
        return Failure("INVALID_STATE_TRANSITION");
      }
      transfers := transfers[id := Chained(t, "TRANSFER_REJECTED", t.payloadHash, at)
                                     .(status := Rejected, lastErrorCode := Some(reason))];
      AppendAudit(id, "TRANSFER_REJECTED", Some(reason));
      r := Success(transfers[id]);
    }

    method ResolveReconciliation(actor: string, id: string, noteLength: nat, resolution: Resolution)
      returns (r: Result<Reconciliation, string>)
      modifies this`reconciliation
      ensures Current() == Resolve(old(Current()), directory, actor, id, noteLength, resolution)
      ensures match ResolveError(old(Current()), directory, actor, id, noteLength, resolution)
              case Some(code) => r == Failure(code)
              case None => r == Success(reconciliation[id])
    {
      if actor !in directory.users { return Failure("ACTOR_NOT_AUTHENTICATED"); }
      var user := directory.users[actor];
      if !user.human { return Failure("AI_CANNOT_RESOLVE_RECONCILIATION"); }
      if AUTHORIZER_ROLE !in user.roles { return Failure("ACTOR_MISSING_AUTHORIZER_ROLE"); }
      if id !in transfers { return Failure("TRANSFER_NOT_FOUND"); }
      if user.orgId != transfers[id].armaOrgId { return Failure("ACTOR_NOT_IN_TRANSFER_ORG"); }
      if resolution.Open? { return Failure("INVALID_RESOLUTION_STATUS"); }
      if noteLength < 10 { return Failure("RESOLUTION_NOTE_TOO_SHORT"); }
      if id !in reconciliation { return Failure("RECONCILIATION_NOT_FOUND"); }
      if reconciliation[id].resolution.Resolved? { return Failure("RECONCILIATION_ALREADY_RESOLVED"); }
      reconciliation := reconciliation[id := reconciliation[id].(resolution := resolution, resolver := Some(actor))];
      r := Success(reconciliation[id]);
    }
  }
}
