/**
 What ARMA's audit trail is worth: in every run its last event about a transfer tells the transfer's
 status, and it holds exactly one event for each send.
 */
module ArmaAudit {
  import opened Wrappers
  import opened ArmaTransfers
  import opened ArmaSends

  /** The status an event tells. */
  predicate Means(e: AuditEvent, status: Status) {
    match status
    case Draft => e.eventType == "TRANSFER_DRAFT_CREATED"
    case PendingAuthorization => false
    case Authorized => e.eventType == "TRANSFER_AUTHORIZED"
    case ReadyToSend => e.eventType == "TRANSFER_READY_TO_SEND" || e.eventType == "TRANSFER_RETRY_SCHEDULED"
    case Sent => e.eventType == "TRANSFER_SENT"
    case ReceiptVerified => e.eventType == "TRANSFER_RECEIPT_VERIFIED"
    case Accepted => e.eventType == "TRANSFER_ACCEPTED"
    case Rejected => e.eventType == "TRANSFER_REJECTED"
    case ReconciliationRequired => e.eventType == "TRANSFER_RECONCILIATION_OPENED"
  }

  /** The event tells of the record: its status, and its error if there is one to tell. */
  predicate Describes(e: AuditEvent, r: Record) {
    Means(e, r.status) && (e.code.Some? ==> r.lastErrorCode == e.code)
  }

  /** The last event about a transfer. */
  function LastOn(audit: seq<AuditEvent>, id: string): Option<AuditEvent> {
    if audit == [] then None
    else if audit[|audit| - 1].transferId == id then Some(audit[|audit| - 1])
    else LastOn(audit[..|audit| - 1], id)
  }

  /** How many sends of a transfer the trail tells of. */
  function SentEvents(audit: seq<AuditEvent>, id: string): nat {
    if audit == [] then 0
    else
      var last := audit[|audit| - 1];
      SentEvents(audit[..|audit| - 1], id) + (if last.transferId == id && last.eventType == "TRANSFER_SENT" then 1 else 0)
  }

  lemma OneMoreEvent(audit: seq<AuditEvent>, e: AuditEvent, id: string)
    ensures LastOn(audit + [e], id) == if e.transferId == id then Some(e) else LastOn(audit, id)
    ensures SentEvents(audit + [e], id)
            == SentEvents(audit, id) + (if e.transferId == id && e.eventType == "TRANSFER_SENT" then 1 else 0)
  {
    assert (audit + [e])[..|audit|] == audit;
  }

  // ----- One move -----

  /**
   One transfer was changed, and this event left last about it; an acceptance leaves the verified receipt
   before it.
   */
  predicate Records(s: State, s': State, id: string, e: AuditEvent) {
    && s'.audit == s.audit + Before(id, e) + [e] && e.transferId == id
    && id in s'.transfers && s'.transfers == s.transfers[id := s'.transfers[id]] && Describes(e, s'.transfers[id])
  }

  function Before(id: string, e: AuditEvent): seq<AuditEvent> {
    if e.eventType == "TRANSFER_ACCEPTED" then [AuditEvent(id, "TRANSFER_RECEIPT_VERIFIED", None)] else []
  }

  function LastOf(s: State): AuditEvent
    requires s.audit != []
  {
    s.audit[|s.audit| - 1]
  }

  /** The trail tells every transfer's status, and of nothing that is not stored. */
  ghost predicate Told(s: State) {
    && (forall id :: id in s.transfers ==>
          LastOn(s.audit, id).Some? && Describes(LastOn(s.audit, id).value, s.transfers[id]))
    && (forall id :: id !in s.transfers ==> LastOn(s.audit, id).None?)
  }

  ghost predicate SameSends(audit: seq<AuditEvent>, audit': seq<AuditEvent>) {
    forall id :: SentEvents(audit', id) == SentEvents(audit, id)
  }

  lemma RecordsTell(s: State, s': State, id: string, e: AuditEvent)
    requires Told(s) && Records(s, s', id, e)
    ensures Told(s')
    ensures forall t :: SentEvents(s'.audit, t)
                        == SentEvents(s.audit, t) + (if t == id && e.eventType == "TRANSFER_SENT" then 1 else 0)
  {
    forall t: string
      ensures LastOn(s'.audit, t) == if t == id then Some(e) else LastOn(s.audit, t)
      ensures SentEvents(s'.audit, t)
              == SentEvents(s.audit, t) + (if t == id && e.eventType == "TRANSFER_SENT" then 1 else 0)
    {
      OneMoreEvent(s.audit + Before(id, e), e, t);
      if Before(id, e) != [] { OneMoreEvent(s.audit, Before(id, e)[0], t); }
      else { assert s.audit + Before(id, e) == s.audit; }
    }
  }

  lemma QuietTells(s: State, s': State)
    requires Told(s) && s'.audit == s.audit && s'.transfers == s.transfers
    ensures Told(s')
  {
  }

  // ----- One operation -----

  lemma DraftTells(s: State, d: Directory, disabled: bool, actor: string, q: DraftRequest)
    requires Told(s)
    ensures var s' := CreateDraft(s, d, disabled, actor, q); Told(s') && SameSends(s.audit, s'.audit)
  {
    if DraftError(s, d, disabled, actor, q).None? {
      var s' := CreateDraft(s, d, disabled, actor, q);
      DraftRecords(s, d, disabled, actor, q);
      RecordsTell(s, s', q.transferId, LastOf(s'));
    }
  }

  lemma DraftRecords(s: State, d: Directory, disabled: bool, actor: string, q: DraftRequest)
    requires DraftError(s, d, disabled, actor, q).None?
    ensures var s' := CreateDraft(s, d, disabled, actor, q);
            s'.audit != [] && Records(s, s', q.transferId, LastOf(s')) && LastOf(s').eventType != "TRANSFER_SENT"
  {
  }

  lemma AuthorizationTells(s: State, d: Directory, disabled: bool, actor: string, id: string, reason: string,
                           reasonLength: nat, at: int)
    requires Told(s)
    ensures var s' := Authorize(s, d, disabled, actor, id, reason, reasonLength, at);
            Told(s') && SameSends(s.audit, s'.audit)
  {
    if AuthorizeError(s, d, disabled, actor, id, reasonLength).None? {
      var s' := Authorize(s, d, disabled, actor, id, reason, reasonLength, at);
      AuthorizationRecords(s, d, disabled, actor, id, reason, reasonLength, at);
      RecordsTell(s, s', id, LastOf(s'));
    }
  }

  lemma AuthorizationRecords(s: State, d: Directory, disabled: bool, actor: string, id: string, reason: string,
                             reasonLength: nat, at: int)
    requires AuthorizeError(s, d, disabled, actor, id, reasonLength).None?
    ensures var s' := Authorize(s, d, disabled, actor, id, reason, reasonLength, at);
            s'.audit != [] && Records(s, s', id, LastOf(s')) && LastOf(s').eventType != "TRANSFER_SENT"
  {
  }

  lemma ReadyTells(s: State, d: Directory, disabled: bool, id: string, destination: Option<string>,
                   caseId: Option<string>, at: int)
    requires Told(s)
    ensures var s' := Ready(s, d, disabled, id, destination, caseId, at); Told(s') && SameSends(s.audit, s'.audit)
  {
    if ReadyError(s, d, disabled, id, destination, caseId).None? {
      var s' := Ready(s, d, disabled, id, destination, caseId, at);
      ReadyRecords(s, d, disabled, id, destination, caseId, at);
      RecordsTell(s, s', id, LastOf(s'));
    }
  }

  lemma ReadyRecords(s: State, d: Directory, disabled: bool, id: string, destination: Option<string>,
                     caseId: Option<string>, at: int)
    requires ReadyError(s, d, disabled, id, destination, caseId).None?
    ensures var s' := Ready(s, d, disabled, id, destination, caseId, at);
            s'.audit != [] && Records(s, s', id, LastOf(s')) && LastOf(s').eventType != "TRANSFER_SENT"
  {
  }

  lemma RejectionTells(s: State, d: Directory, actor: string, id: string, reason: string, at: int)
    requires Told(s)
    ensures var s' := Reject(s, d, actor, id, reason, at); Told(s') && SameSends(s.audit, s'.audit)
  {
    if RejectError(s, d, actor, id).None? {
      var s' := Reject(s, d, actor, id, reason, at);
      RejectionRecords(s, d, actor, id, reason, at);
      RecordsTell(s, s', id, LastOf(s'));
    }
  }

  lemma RejectionRecords(s: State, d: Directory, actor: string, id: string, reason: string, at: int)
    requires RejectError(s, d, actor, id).None?
    ensures var s' := Reject(s, d, actor, id, reason, at);
            s'.audit != [] && Records(s, s', id, LastOf(s')) && LastOf(s').eventType != "TRANSFER_SENT"
  {
  }

  lemma SettlementTells(s: State, o: Outbound, d: Disposition, at: int)
    requires Told(s) && o.transferId in s.transfers
    ensures var s' := Settled(s, o.transferId, o, d, at); Told(s') && SameSends(s.audit, s'.audit)
  {
    var s' := Settled(s, o.transferId, o, d, at);
    SettlementRecords(s, o, d, at);
    RecordsTell(s, s', o.transferId, LastOf(s'));
  }

  lemma SettlementRecords(s: State, o: Outbound, d: Disposition, at: int)
    requires o.transferId in s.transfers
    ensures var s' := Settled(s, o.transferId, o, d, at);
            s'.audit != [] && Records(s, s', o.transferId, LastOf(s')) && LastOf(s').eventType != "TRANSFER_SENT"
  {
  }

  lemma ResolutionTells(s: State, d: Directory, actor: string, id: string, noteLength: nat, resolution: Resolution)
    requires Told(s)
    ensures var s' := Resolve(s, d, actor, id, noteLength, resolution); Told(s') && SameSends(s.audit, s'.audit)
  {
    ResolveKeepsRecords(s, d, actor, id, noteLength, resolution);
    QuietTells(s, Resolve(s, d, actor, id, noteLength, resolution));
  }

  lemma SendTells(s: State, hash: Hash, id: string, at: int)
    requires Told(s) && id in s.transfers
    ensures var s' := WithSend(s, hash, id, at);
            && Told(s')
            && (forall t :: SentEvents(s'.audit, t) == SentEvents(s.audit, t) + (if t == id then 1 else 0))
  {
    var s', e := WithSend(s, hash, id, at), AuditEvent(id, "TRANSFER_SENT", None);
    assert s.audit + Before(id, e) + [e] == s.audit + [e];
    RecordsTell(s, s', id, e);
  }

  // ----- Every run -----

  /** As many sends of each transfer as events that tell of one. */
  ghost predicate SendsTold(y: Side) {
    forall id :: SentEvents(y.arma.audit, id) == Count(y.sends, id)
  }

  /** The service's own moves on its records, the send and its answer aside. */
  lemma OwnMoveTells(y: Side, m: Move, hash: Hash)
    requires Told(y.arma) && !m.StartSend? && !m.SettleSend?
    ensures Told(Moved(y, m, hash).arma) && SameSends(y.arma.audit, Moved(y, m, hash).arma.audit)
  {
    var s, d := y.arma, y.directory;
    if Possible(y, m) {
      match m {
        case Draft(disabled, actor, q) => DraftTells(s, d, disabled, actor, q);
        case Permit(disabled, actor, id, reason, reasonLength, at) =>
          AuthorizationTells(s, d, disabled, actor, id, reason, reasonLength, at);
        case MakeReady(disabled, id, destination, caseId, at) => ReadyTells(s, d, disabled, id, destination, caseId, at);
        case Decline(actor, id, reason, at) => RejectionTells(s, d, actor, id, reason, at);
        case CloseReconciliation(actor, id, noteLength, resolution) =>
          ResolutionTells(s, d, actor, id, noteLength, resolution);
        case _ =>
      }
    }
  }

  lemma SettleMoveTells(y: Side, m: Move, hash: Hash)
    requires Told(y.arma) && m.SettleSend?
    ensures Told(Moved(y, m, hash).arma) && SameSends(y.arma.audit, Moved(y, m, hash).arma.audit)
  {
    if Possible(y, m) {
      SettlementTells(y.arma, m.outbound,
                      Disposed(m.answer, m.outbound, y.arma.transfers[m.outbound.transferId].retryCount), m.at);
    }
  }

  lemma SendMoveTells(y: Side, m: Move, hash: Hash)
    requires Told(y.arma) && SendsTold(y) && Ok(y, hash) && m.StartSend?
    ensures Told(Moved(y, m, hash).arma) && SendsTold(Moved(y, m, hash))
  {
    if SendError(y.arma, hash, m.disabled, m.id, m.at, m.screening).None? {
      var y', o := Moved(y, m, hash), OutboundOf(y.arma.transfers[m.id], hash, m.at);
      assert RecordOk(y.arma, y.sends, m.id);
      SendTells(y.arma, hash, m.id, m.at);
      assert y'.sends == y.sends + [o] && (y.sends + [o])[..|y.sends|] == y.sends;
    }
  }

  lemma MoveTells(y: Side, m: Move, hash: Hash)
    requires Ok(y, hash) && Told(y.arma) && SendsTold(y)
    ensures Told(Moved(y, m, hash).arma) && SendsTold(Moved(y, m, hash))
  {
    if m.StartSend? {
      SendMoveTells(y, m, hash);
    } else {
      if m.SettleSend? { SettleMoveTells(y, m, hash); } else { OwnMoveTells(y, m, hash); }
      OthersSendNothing(y, m, hash);
    }
  }

  lemma {:induction false} RunTells(y: Side, moves: seq<Move>, hash: Hash)
    requires Ok(y, hash) && Told(y.arma) && SendsTold(y)
    ensures Told(Run(y, moves, hash).arma) && SendsTold(Run(y, moves, hash))
    decreases |moves|
  {
    if moves != [] {
      MoveTells(y, moves[0], hash);
      MoveKeeps(y, moves[0], hash);
      RunTells(Moved(y, moves[0], hash), moves[1..], hash);
    }
  }

  /**
   In every run, from the first move on: the last event about a transfer tells its status and, if the
   event has a code, its error; nothing is told of a transfer that is not stored; and each send has
   exactly one event.
   */
  lemma TrailTellsAll(directory: Directory, moves: seq<Move>, hash: Hash, id: string)
    ensures var y := Run(Start(directory), moves, hash);
            && (if id in y.arma.transfers
                then LastOn(y.arma.audit, id).Some?
                     && Describes(LastOn(y.arma.audit, id).value, y.arma.transfers[id])
                else LastOn(y.arma.audit, id).None?)
            && SentEvents(y.arma.audit, id) == Count(y.sends, id)
  {
    RunTells(Start(directory), moves, hash);
  }
}
