/**
 The durable tables behind the Law Shield processor (law-shield/lawshield/durable/store.js).

 Every registry key in the source is prefixed with the schema version. Only one schema version
 ever reaches the tables, so the prefix is dropped here: a nonce and an idempotency key are
 their own keys.
 */
module LawShieldStore {
  import opened Wrappers
  import opened Nonces

  const MAX_CLOCK_SKEW_MS := 5 * 60 * 1000
  const NONCE_VALIDITY_WINDOW_MS := 2 * MAX_CLOCK_SKEW_MS

  datatype Status = Accepted | Rejected | Quarantined

  datatype NonceRecord = NonceRecord(transferId: string, seenAt: int, windowMs: int)

  datatype Binding = Binding(transferId: string, payloadHash: string, outcome: Status,
                             receiptId: Option<string>, acceptedAt: Option<int>,
                             errorCode: Option<string>)

  /** Whom and what a transfer is about: copied from the envelope, never decided upon here. */
  datatype Subject = Subject(armaOrgId: string, lawShieldOrgId: string,
                             incidentId: Option<string>, lawShieldCaseId: Option<string>,
                             recordType: string, recordId: string, authorizedBy: string)

  datatype Transfer = Transfer(transferId: string, idempotencyKey: string, subject: Subject,
                               payloadHash: string, status: Status, receiptId: Option<string>,
                               acceptedAt: Option<int>, rejectedAt: Option<int>,
                               quarantinedAt: Option<int>, lastErrorCode: Option<string>,
                               minimumNecessaryFields: seq<string>)

  datatype Receipt = Receipt(receiptId: string, transferId: string, idempotencyKey: string,
                             payloadHash: string, acceptedAt: int, processingResult: string)

  datatype AuditEntry = AuditEntry(transferId: Option<string>, idempotencyKey: Option<string>,
                                   eventType: string, outcome: string, code: string)

  datatype AuditEvent = AuditEvent(auditSequence: nat, entry: AuditEntry)

  /** Writes that are told to fail. */
  datatype FailPoints = FailPoints(persistTransfer: bool, persistReceipt: bool, auditWrite: bool)

  datatype StoreError =
    | FailPoint(name: string)
    | InvalidNonce
    | ReplayedNonce(firstSeenTransferId: string)
    | IdempotencyKeyConflict(existingTransferId: string)
    | TransferAlreadyProcessed(existingStatus: Status)

  datatype OrgMapping = OrgMapping(lawShieldOrgId: string, active: bool)
  datatype CaseMapping = CaseMapping(lawShieldOrgId: string, lawShieldCaseId: string, active: bool)
  datatype Authorizer = Authorizer(armaOrgId: string, active: bool)

  datatype Directory = Directory(orgMappings: map<string, OrgMapping>,
                                 caseMappings: map<(string, string), CaseMapping>,
                                 authorizers: map<string, Authorizer>)

  /** The value of all decision tables at one moment. */
  datatype Tables = Tables(nonces: map<string, NonceRecord>, idempotency: map<string, Binding>,
                           transfers: map<string, Transfer>, byKey: map<string, string>,
                           receipts: map<string, Receipt>, audit: seq<AuditEvent>)

  const EMPTY_TABLES := Tables(map[], map[], map[], map[], map[], [])

  /** The nonces still inside their replay window at time `at`. */
  function Unexpired(nonces: map<string, NonceRecord>, at: int): map<string, NonceRecord> {
    map n | n in nonces && at - nonces[n].seenAt <= nonces[n].windowMs :: nonces[n]
  }

  function WithNonce(nonces: map<string, NonceRecord>, nonce: string, transferId: string, at: int):
    map<string, NonceRecord>
  {
    Unexpired(nonces, at)[nonce := NonceRecord(transferId, at, NONCE_VALIDITY_WINDOW_MS)]
  }

  /** Appends one event, numbered after all those before it. */
  function Audited(s: Tables, entry: AuditEntry): Tables {
    s.(audit := s.audit + [AuditEvent(|s.audit| + 1, entry)])
  }

  /** Whether the transfer table takes `record`: no other content or decision may hold its id. */
  predicate Admits(transfers: map<string, Transfer>, record: Transfer) {
    record.transferId in transfers ==>
      transfers[record.transferId].payloadHash == record.payloadHash
      && transfers[record.transferId].status == record.status
  }

  /** The first writer of a key wins; later writers leave the table as it is. */
  function FirstWins<T>(table: map<string, T>, key: string, value: T): map<string, T> {
    if key in table then table else table[key := value]
  }

  function WithTransfer(s: Tables, record: Transfer): Tables {
    s.(transfers := FirstWins(s.transfers, record.transferId, record))
  }

  function WithReceipt(s: Tables, record: Receipt): Tables {
    s.(receipts := FirstWins(s.receipts, record.receiptId, record))
  }

  /** Binds a key in the registry and in the secondary index, unless it is bound already. */
  function Bound(s: Tables, key: string, binding: Binding): Tables {
    if key in s.idempotency then s
    else s.(idempotency := s.idempotency[key := binding], byKey := s.byKey[key := binding.transferId])
  }

  /** A saved copy of every table, as taken at the start of a transaction. */
  datatype Snapshot = Snapshot(tables: Tables, auditSequence: nat, directory: Directory)

  class DurableStore {
    var orgMappings: map<string, OrgMapping>
    var caseMappings: map<(string, string), CaseMapping>
    var authorizers: map<string, Authorizer>
    var nonces: map<string, NonceRecord>
    var idempotency: map<string, Binding>
    var transfers: map<string, Transfer>
    var transfersByIdempotency: map<string, string>
    var receipts: map<string, Receipt>
    var audit: seq<AuditEvent>
    var auditSequence: nat
    const failPoints: FailPoints

    /** The sequence counter is the number of events written. */
    ghost predicate Valid()
      reads this
    {
      auditSequence == |audit|
    }

    function Contents(): Tables
      reads this
    {
      Tables(nonces, idempotency, transfers, transfersByIdempotency, receipts, audit)
    }

    function CurrentDirectory(): Directory
      reads this
    {
      Directory(orgMappings, caseMappings, authorizers)
    }

    constructor (failPoints: FailPoints)
      ensures Valid() && Contents() == EMPTY_TABLES && this.failPoints == failPoints
    {
      orgMappings, caseMappings, authorizers := map[], map[], map[];
      nonces, idempotency, transfers := map[], map[], map[];
      transfersByIdempotency, receipts := map[], map[];
      audit, auditSequence := [], 0;
      this.failPoints := failPoints;
    }

    method TakeSnapshot() returns (snapshot: Snapshot)
      ensures snapshot == Snapshot(Contents(), auditSequence, CurrentDirectory())
    {
      snapshot := Snapshot(Contents(), auditSequence, CurrentDirectory());
    }

    /** Rolls every table, the directory and the audit counter back. */
    method Restore(snapshot: Snapshot)
      requires snapshot.auditSequence == |snapshot.tables.audit|
      modifies this
      ensures Valid()
      ensures Contents() == snapshot.tables && CurrentDirectory() == snapshot.directory
    {
      orgMappings := snapshot.directory.orgMappings;
      caseMappings := snapshot.directory.caseMappings;
      authorizers := snapshot.directory.authorizers;
      nonces := snapshot.tables.nonces;
      idempotency := snapshot.tables.idempotency;
      transfers := snapshot.tables.transfers;
      transfersByIdempotency := snapshot.tables.byKey;
      receipts := snapshot.tables.receipts;
      audit := snapshot.tables.audit;
      auditSequence := snapshot.auditSequence;
    }

    /** Drops expired nonces one by one, then registers this one or reports the replay. */
    method RegisterNonce(nonce: string, transferId: string, at: int)
      returns (r: Result<NonceRecord, StoreError>)
      modifies this`nonces
      ensures r.Success? <==> WellFormedNonce(nonce) && nonce !in Unexpired(old(nonces), at)
      ensures r.Success? ==>
                Contents() == old(Contents()).(nonces := WithNonce(old(nonces), nonce, transferId, at))
      ensures r.Failure? && WellFormedNonce(nonce) ==>
                nonces == Unexpired(old(nonces), at) && r.error == ReplayedNonce(nonces[nonce].transferId)
      ensures !WellFormedNonce(nonce) ==> nonces == old(nonces) && r == Failure(InvalidNonce)
    {
      if !WellFormedNonce(nonce) {
        return Failure(InvalidNonce);
      }
      var pending := nonces.Keys;
      while pending != {}
        invariant pending <= old(nonces).Keys
        invariant forall n :: n in nonces <==>
                    n in old(nonces) && (n in pending || n in Unexpired(old(nonces), at))
        invariant forall n :: n in nonces ==> nonces[n] == old(nonces)[n]
        decreases |pending|
      {
        var n :| n in pending;
        if at - nonces[n].seenAt > nonces[n].windowMs {
          nonces := nonces - {n};
        }
        pending := pending - {n};
      }
      assert nonces == Unexpired(old(nonces), at);
      if nonce in nonces {
        return Failure(ReplayedNonce(nonces[nonce].transferId));
      }
      var record := NonceRecord(transferId, at, NONCE_VALIDITY_WINDOW_MS);
      nonces := nonces[nonce := record];
      r := Success(record);
    }

    /** No binding: first use. A binding to other content: conflict. Otherwise: the binding. */
    method ResolveIdempotencyKey(idempotencyKey: string, transferId: string, payloadHash: string)
      returns (r: Result<Option<Binding>, StoreError>)
      ensures r == Success(None) <==> idempotencyKey !in idempotency
      ensures r.Success? && r.value.Some? ==>
                idempotencyKey in idempotency && r.value.value == idempotency[idempotencyKey]
                && r.value.value.transferId == transferId && r.value.value.payloadHash == payloadHash
      ensures r.Failure? ==>
                idempotencyKey in idempotency
                && (idempotency[idempotencyKey].transferId != transferId
                    || idempotency[idempotencyKey].payloadHash != payloadHash)
                && r.error == IdempotencyKeyConflict(idempotency[idempotencyKey].transferId)
    {
      if idempotencyKey !in idempotency {
        return Success(None);
      }
      var binding := idempotency[idempotencyKey];
      if binding.transferId != transferId || binding.payloadHash != payloadHash {
        return Failure(IdempotencyKeyConflict(binding.transferId));
      }
      r := Success(Some(binding));
    }

    method BindIdempotencyKey(idempotencyKey: string, binding: Binding) returns (stored: Binding)
      modifies this`idempotency, this`transfersByIdempotency
      ensures Contents() == Bound(old(Contents()), idempotencyKey, binding)
      ensures stored == idempotency[idempotencyKey]
    {
      if idempotencyKey in idempotency {
        return idempotency[idempotencyKey];
      }
      idempotency := idempotency[idempotencyKey := binding];
      transfersByIdempotency := transfersByIdempotency[idempotencyKey := binding.transferId];
      stored := binding;
    }

    method CreateDurableTransfer(record: Transfer) returns (r: Result<Transfer, StoreError>)
      modifies this`transfers
      ensures r.Success? <==> !failPoints.persistTransfer && Admits(old(transfers), record)
      ensures r.Success? ==> Contents() == WithTransfer(old(Contents()), record)
                             && r.value == transfers[record.transferId]
      ensures r.Failure? ==> transfers == old(transfers)
      ensures r.Failure? ==> (r.error.FailPoint? <==> failPoints.persistTransfer)
      ensures r.Failure? && !r.error.FailPoint? ==> r.error.TransferAlreadyProcessed?
    {
      if failPoints.persistTransfer {
        return Failure(FailPoint("persistTransfer"));
      }
      if record.transferId in transfers {
        var existing := transfers[record.transferId];
        if existing.payloadHash == record.payloadHash && existing.status == record.status {
          return Success(existing);
        }
        return Failure(TransferAlreadyProcessed(existing.status));
      }
      transfers := transfers[record.transferId := record];
      r := Success(record);
    }

    method CreateReceiptRecord(record: Receipt) returns (r: Result<Receipt, StoreError>)
      modifies this`receipts
      ensures r.Success? <==> !failPoints.persistReceipt
      ensures r.Success? ==> Contents() == WithReceipt(old(Contents()), record)
                             && r.value == receipts[record.receiptId]
      ensures r.Failure? ==> receipts == old(receipts) && r.error.FailPoint?
    {
      if failPoints.persistReceipt {
        return Failure(FailPoint("persistReceipt"));
      }
      if record.receiptId in receipts {
        return Success(receipts[record.receiptId]);
      }
      receipts := receipts[record.receiptId := record];
      r := Success(record);
    }

    method AppendAudit(entry: AuditEntry) returns (r: Result<AuditEvent, StoreError>)
      requires Valid()
      modifies this`audit, this`auditSequence
      ensures Valid()
      ensures r.Success? <==> !failPoints.auditWrite
      ensures r.Success? ==> Contents() == Audited(old(Contents()), entry)
      ensures r.Failure? ==> Contents() == old(Contents()) && r.error == FailPoint("auditWrite")
    {
      if failPoints.auditWrite {
        return Failure(FailPoint("auditWrite"));
      }
      auditSequence := auditSequence + 1;
      var event := AuditEvent(auditSequence, entry);
      audit := audit + [event];
      r := Success(event);
    }
  }
}
