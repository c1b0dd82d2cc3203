/**
 What every run of ARMA keeps: how often a transfer is sent, with what, and after what.

 Nothing is assumed here about the network: the answer a send settles with is arbitrary. Other
 calls may run between the two halves of a send, and a crash may forget the calls in flight.
 */
module ArmaSends {
  import opened Wrappers
  import Json
  import Redaction
  import RA = RedactionAgreement
  import RV = ReceiptVerifier
  import opened ArmaTransfers

  /** ARMA's store, with the fetches it waits on and every send it has made, in order. */
  datatype Side = Side(arma: State, directory: Directory, calls: multiset<Outbound>, sends: seq<Outbound>)

  datatype Move =
    | Draft(disabled: bool, actor: string, draft: DraftRequest)
    | Permit(disabled: bool, actor: string, id: string, reason: string, reasonLength: nat, at: int)
    | MakeReady(disabled: bool, id: string, destination: Option<string>, caseId: Option<string>, at: int)
    | StartSend(disabled: bool, id: string, at: int, screening: Option<string>)
    | SettleSend(outbound: Outbound, answer: Answer, at: int)
    | Decline(actor: string, id: string, reason: string, at: int)
    | CloseReconciliation(actor: string, id: string, noteLength: nat, resolution: Resolution)
    | ChangeDirectory(directory: Directory)
    | ForgetCalls

  type Hash = seq<Json.Field> -> string

  function Start(directory: Directory): Side {
    Side(EMPTY, directory, multiset{}, [])
  }

  /** Whether the move can happen. New drafts come with fresh transfer ids. */
  predicate Possible(y: Side, m: Move) {
    match m
    case Draft(_, _, q) => q.transferId !in y.arma.transfers
    case SettleSend(o, _, _) => o in y.calls && o.transferId in y.arma.transfers
    case _ => true
  }

  function Sending(y: Side, m: Move, hash: Hash): Side
    requires m.StartSend?
  {
    if SendError(y.arma, hash, m.disabled, m.id, m.at, m.screening).Some? then y
    else
      var o := OutboundOf(y.arma.transfers[m.id], hash, m.at);
      y.(arma := WithSend(y.arma, hash, m.id, m.at), calls := y.calls + multiset{o}, sends := y.sends + [o])
  }

  function Settling(y: Side, m: Move): Side
    requires m.SettleSend? && m.outbound.transferId in y.arma.transfers
  {
    var id := m.outbound.transferId;
    y.(arma := Settled(y.arma, id, m.outbound,
                       Disposed(m.answer, m.outbound, y.arma.transfers[id].retryCount), m.at),
       calls := y.calls - multiset{m.outbound})
  }

  function Moved(y: Side, m: Move, hash: Hash): Side {
    if !Possible(y, m) then y
    else
      match m
      case Draft(disabled, actor, q) =>
        y.(arma := CreateDraft(y.arma, y.directory, disabled, actor, q))
      case Permit(disabled, actor, id, reason, reasonLength, at) =>
        y.(arma := Authorize(y.arma, y.directory, disabled, actor, id, reason, reasonLength, at))
      case MakeReady(disabled, id, destination, caseId, at) =>
        y.(arma := Ready(y.arma, y.directory, disabled, id, destination, caseId, at))
      case StartSend(_, _, _, _) => Sending(y, m, hash)
      case SettleSend(_, _, _) => Settling(y, m)
      case Decline(actor, id, reason, at) => y.(arma := Reject(y.arma, y.directory, actor, id, reason, at))
      case CloseReconciliation(actor, id, noteLength, resolution) =>
        y.(arma := Resolve(y.arma, y.directory, actor, id, noteLength, resolution))
      case ChangeDirectory(directory) => y.(directory := directory)
      case ForgetCalls => y.(calls := multiset{})
  }

  function Run(y: Side, moves: seq<Move>, hash: Hash): Side
    decreases |moves|
  {
    if moves == [] then y else Run(Moved(y, moves[0], hash), moves[1..], hash)
  }

  // ----- The invariant -----

  function Count(sends: seq<Outbound>, id: string): nat {
    if sends == [] then 0
    else Count(sends[..|sends| - 1], id) + (if sends[|sends| - 1].transferId == id then 1 else 0)
  }

  /** How many sends a record in this status has behind it. */
  predicate SendsFit(r: Record, n: nat) {
    match r.status
    case Draft => n == 0 == r.retryCount
    case PendingAuthorization => n == 0 == r.retryCount
    case Authorized => n == 0 == r.retryCount
    case ReadyToSend => n == r.retryCount <= RV.MAX_RETRY_ATTEMPTS
    case Sent => n == r.retryCount + 1 <= RV.MAX_RETRY_ATTEMPTS + 1
    case ReconciliationRequired => 1 <= n == r.retryCount <= RV.MAX_RETRY_ATTEMPTS + 1
    case Accepted => n == r.retryCount + 1 <= RV.MAX_RETRY_ATTEMPTS + 1
    case Rejected => n <= RV.MAX_RETRY_ATTEMPTS + 1
    case ReceiptVerified => false
  }

  predicate PastAuthorization(r: Record) {
    r.status in {Authorized, ReadyToSend, Sent, ReconciliationRequired, Accepted}
  }

  /** The payload is what the redactor leaves: under its policy there is nothing more to drop. */
  predicate IsRedacted(recordType: string, payload: seq<Json.Field>) {
    Redaction.PolicyFor(recordType).Some?
    && Redaction.RedactionLog(Redaction.PolicyFor(recordType).value, payload) == []
  }

  predicate RecordOk(arma: State, sends: seq<Outbound>, id: string)
    requires id in arma.transfers
  {
    var r := arma.transfers[id];
    && r.transferId == id
    && r.idempotencyKey in arma.byKey && arma.byKey[r.idempotencyKey] == id
    && (PastAuthorization(r) ==> id in arma.authorizations)
    && (r.status.ReconciliationRequired? ==> id in arma.reconciliations)
    && SendsFit(r, Count(sends, id))
    && IsRedacted(r.recordType, r.payload)
  }

  /** A send is of a known, authorized record, with the record's own key and content. */
  predicate SendOk(arma: State, hash: Hash, o: Outbound) {
    && BuildError(o, None).None?
    && o.transferId in arma.transfers && o.transferId in arma.authorizations
    && var r := arma.transfers[o.transferId];
       && o.idempotencyKey == r.idempotencyKey && o.payload == r.payload && o.recordType == r.recordType
       && o.payloadHash == hash(r.payload)
  }

  /** A call in flight is the only one of its transfer, which stands at SENT. */
  predicate CallOk(y: Side, o: Outbound) {
    && o in y.sends && o.transferId in y.arma.transfers
    && y.arma.transfers[o.transferId].status.Sent?
    && y.arma.transfers[o.transferId].payloadHash == Some(o.payloadHash)
    && y.calls[o] == 1
    && (forall c :: c in y.calls && c.transferId == o.transferId ==> c == o)
  }

  ghost predicate Ok(y: Side, hash: Hash) {
    && (forall id :: id in y.arma.transfers ==> RecordOk(y.arma, y.sends, id))
    && (forall o :: o in y.sends ==> SendOk(y.arma, hash, o))
    && (forall o :: o in y.calls ==> CallOk(y, o))
  }

  // ----- What a move does to the records -----

  /** Whether one status may follow another. */
  predicate MayFollow(a: Status, b: Status) {
    a == b
    || match a
       case Draft => b == Authorized || b == Rejected
       case PendingAuthorization => b == Authorized || b == Rejected
       case Authorized => b == ReadyToSend || b == Rejected
       case ReadyToSend => b == Sent || b == Rejected
       case Sent => b in {ReadyToSend, Accepted, Rejected, ReconciliationRequired}
       case ReconciliationRequired => b == Rejected
       case _ => false
  }

  predicate Follows(r: Record, r': Record) {
    && r'.transferId == r.transferId && r'.idempotencyKey == r.idempotencyKey
    && r'.payload == r.payload && r'.recordType == r.recordType
    && MayFollow(r.status, r'.status)
  }

  /** No record is lost, none changes its key or content, statuses move only forward. */
  predicate Progress(s: State, s': State) {
    && (forall id :: id in s.transfers ==> id in s'.transfers && Follows(s.transfers[id], s'.transfers[id]))
    && (forall id :: id in s.authorizations ==> id in s'.authorizations)
    && (forall id :: id in s.reconciliations ==> id in s'.reconciliations)
  }

  /** One record replaced by one that may follow it, everything else of the records as before. */
  predicate Replaced(s: State, s': State, id: string) {
    && id in s.transfers && id in s'.transfers
    && s'.transfers == s.transfers[id := s'.transfers[id]]
    && s'.byKey == s.byKey
    && Follows(s.transfers[id], s'.transfers[id])
    && (forall a :: a in s.authorizations ==> a in s'.authorizations)
    && (forall a :: a in s.reconciliations ==> a in s'.reconciliations)
  }

  lemma AuthorizeReplaces(s: State, d: Directory, disabled: bool, actor: string, id: string, reason: string,
                          reasonLength: nat, at: int)
    ensures var s' := Authorize(s, d, disabled, actor, id, reason, reasonLength, at);
            s' == s
            || (&& Replaced(s, s', id) && id in s'.authorizations
                && s.transfers[id].status in {Status.Draft, PendingAuthorization}
                && s'.transfers[id].status.Authorized?
                && s'.transfers[id].retryCount == s.transfers[id].retryCount)
  {
  }

  lemma ReadyReplaces(s: State, d: Directory, disabled: bool, id: string, destination: Option<string>,
                      caseId: Option<string>, at: int)
    ensures var s' := Ready(s, d, disabled, id, destination, caseId, at);
            s' == s
            || (&& Replaced(s, s', id)
                && s.transfers[id].status.Authorized? && s'.transfers[id].status.ReadyToSend?
                && s'.transfers[id].retryCount == s.transfers[id].retryCount)
  {
  }

  lemma RejectReplaces(s: State, d: Directory, actor: string, id: string, reason: string, at: int)
    ensures var s' := Reject(s, d, actor, id, reason, at);
            s' == s
            || (&& Replaced(s, s', id) && !s.transfers[id].status.Sent? && !s.transfers[id].status.Accepted?
                && s'.transfers[id].status.Rejected?)
  {
  }

  /** What each disposition leaves in the record. */
  lemma SettledReplaces(s: State, id: string, o: Outbound, d: Disposition, at: int)
    requires id in s.transfers && s.transfers[id].status.Sent?
    ensures var s' := Settled(s, id, o, d, at);
            && Replaced(s, s', id)
            && var r, r' := s.transfers[id], s'.transfers[id];
               && r'.payloadHash == r.payloadHash
               && match d
                  case Confirmed(receipt) =>
                    r'.status.Accepted? && r'.receiptId == Some(receipt.receiptId) && r'.retryCount == r.retryCount
                  case Doubtful(_) =>
                    r'.status.ReconciliationRequired? && r'.retryCount == r.retryCount + 1 && id in s'.reconciliations
                  case Retried(_, _) => r'.status.ReadyToSend? && r'.retryCount == r.retryCount + 1
                  case Terminal(_) => r'.status.Rejected?
  {
  }

  /** A retry is scheduled only while the schedule lasts; a receipt confirms only once verified. */
  lemma DispositionFits(a: Answer, o: Outbound, retryCount: nat)
    ensures var d := Disposed(a, o, retryCount);
            && (d.Retried? ==> retryCount < RV.MAX_RETRY_ATTEMPTS)
            && (d.Confirmed? ==> a.Receipt? && RV.VerifyReceipt(a.wire, ExpectedOf(o)) == Success(d.receipt))
  {
  }

  // ----- Every move keeps the invariant -----

  ghost predicate Kept(y: Side, y': Side, hash: Hash) {
    Ok(y', hash) && Progress(y.arma, y'.arma)
  }

  lemma ReplacedKeepsRecords(y: Side, y': Side, hash: Hash, id: string)
    requires Ok(y, hash) && Replaced(y.arma, y'.arma, id) && y'.sends == y.sends
    requires RecordOk(y'.arma, y'.sends, id)
    ensures forall t :: t in y'.arma.transfers ==> RecordOk(y'.arma, y'.sends, t)
    ensures forall o :: o in y'.sends ==> SendOk(y'.arma, hash, o)
    ensures Progress(y.arma, y'.arma)
  {
  }

  /** Replacing a record that no call is about keeps everything. */
  lemma RestingKeeps(y: Side, y': Side, hash: Hash, id: string)
    requires Ok(y, hash) && Replaced(y.arma, y'.arma, id)
    requires y'.sends == y.sends && y'.calls == y.calls
    requires !y.arma.transfers[id].status.Sent? && RecordOk(y'.arma, y'.sends, id)
    ensures Kept(y, y', hash)
  {
    ReplacedKeepsRecords(y, y', hash, id);
    forall o | o in y'.calls
      ensures CallOk(y', o)
    {
      assert CallOk(y, o);
    }
  }

  lemma {:induction false} NeverSent(sends: seq<Outbound>, id: string, arma: State, hash: Hash)
    requires forall o :: o in sends ==> SendOk(arma, hash, o)
    requires id !in arma.transfers
    ensures Count(sends, id) == 0
  {
    if sends != [] {
      assert SendOk(arma, hash, sends[|sends| - 1]);
      NeverSent(sends[..|sends| - 1], id, arma, hash);
    }
  }

  lemma DraftIsRedacted(q: DraftRequest)
    requires Redaction.PolicyFor(q.recordType).Some? && q.rawPayload.Obj?
    ensures IsRedacted(q.recordType, RedactionOf(q).payload)
  {
    RA.RedactionIdempotent(Redaction.PolicyFor(q.recordType).value, q.rawPayload.fields);
  }

  lemma DraftKeeps(y: Side, q: DraftRequest, y': Side, hash: Hash)
    requires Ok(y, hash) && q.transferId !in y.arma.transfers && q.idempotencyKey !in y.arma.byKey
    requires Redaction.PolicyFor(q.recordType).Some? && q.rawPayload.Obj?
    requires y' == y.(arma := WithDraft(y.arma, q, RedactionOf(q)))
    ensures Kept(y, y', hash)
  {
    DraftKeepsRecords(y, q, y', hash);
    NewRecordSparesSends(y, y', q.transferId, hash);
  }

  /** A new record leaves what was sent, and the calls waited on, as they are. */
  lemma NewRecordSparesSends(y: Side, y': Side, id: string, hash: Hash)
    requires Ok(y, hash) && id !in y.arma.transfers && id in y'.arma.transfers
    requires y'.arma.transfers == y.arma.transfers[id := y'.arma.transfers[id]]
    requires y'.arma.authorizations == y.arma.authorizations
    requires y'.sends == y.sends && y'.calls == y.calls
    ensures forall o :: o in y'.sends ==> SendOk(y'.arma, hash, o)
    ensures forall o :: o in y'.calls ==> CallOk(y', o)
  {
  }

  lemma DraftKeepsRecords(y: Side, q: DraftRequest, y': Side, hash: Hash)
    requires Ok(y, hash) && q.transferId !in y.arma.transfers && q.idempotencyKey !in y.arma.byKey
    requires Redaction.PolicyFor(q.recordType).Some? && q.rawPayload.Obj?
    requires y' == y.(arma := WithDraft(y.arma, q, RedactionOf(q)))
    ensures forall t :: t in y'.arma.transfers ==> RecordOk(y'.arma, y'.sends, t)
  {
    NeverSent(y.sends, q.transferId, y.arma, hash);
    DraftIsRedacted(q);
    forall t | t in y'.arma.transfers
      ensures RecordOk(y'.arma, y'.sends, t)
    {
      if t != q.transferId { assert RecordOk(y.arma, y.sends, t); }
    }
  }

  /** One more send of `id`, with one more call waiting on it. */
  predicate SendStarted(y: Side, y': Side, id: string, o: Outbound, hash: Hash) {
    && id in y.arma.transfers && y.arma.transfers[id].status.ReadyToSend?
    && o.transferId == y.arma.transfers[id].transferId
    && Replaced(y.arma, y'.arma, id)
    && y'.arma.transfers[id].status.Sent? && y'.arma.transfers[id].payloadHash == Some(o.payloadHash)
    && y'.arma.transfers[id].retryCount == y.arma.transfers[id].retryCount
    && y'.calls == y.calls + multiset{o} && y'.sends == y.sends + [o]
  }

  lemma SendStartedHolds(y: Side, m: Move, hash: Hash)
    requires m.StartSend? && SendError(y.arma, hash, m.disabled, m.id, m.at, m.screening).None?
    ensures var o := OutboundOf(y.arma.transfers[m.id], hash, m.at);
            SendStarted(y, Sending(y, m, hash), m.id, o, hash) && BuildError(o, None).None?
            && o.idempotencyKey == y.arma.transfers[m.id].idempotencyKey
            && o.payload == y.arma.transfers[m.id].payload && o.recordType == y.arma.transfers[m.id].recordType
            && o.payloadHash == hash(o.payload)
  {
  }

  lemma StartKeepsRecords(y: Side, y': Side, id: string, o: Outbound, hash: Hash)
    requires Ok(y, hash) && SendStarted(y, y', id, o, hash)
    ensures forall t :: t in y'.arma.transfers ==> RecordOk(y'.arma, y'.sends, t)
  {
  }

  lemma StartKeepsSends(y: Side, y': Side, id: string, o: Outbound, hash: Hash)
    requires Ok(y, hash) && SendStarted(y, y', id, o, hash) && BuildError(o, None).None?
    requires o.idempotencyKey == y.arma.transfers[id].idempotencyKey
    requires o.payload == y.arma.transfers[id].payload && o.recordType == y.arma.transfers[id].recordType
    requires o.payloadHash == hash(o.payload)
    ensures forall p :: p in y'.sends ==> SendOk(y'.arma, hash, p)
  {
  }

  lemma StartKeepsCalls(y: Side, y': Side, id: string, o: Outbound, hash: Hash)
    requires Ok(y, hash) && SendStarted(y, y', id, o, hash)
    ensures forall c :: c in y'.calls ==> CallOk(y', c)
  {
  }

  lemma StartKeeps(y: Side, m: Move, hash: Hash)
    requires Ok(y, hash) && m.StartSend?
    ensures Kept(y, Sending(y, m, hash), hash)
  {
    var y' := Sending(y, m, hash);
    if SendError(y.arma, hash, m.disabled, m.id, m.at, m.screening).None? {
      SendStartedHolds(y, m, hash);
      StartedKeeps(y, y', m.id, OutboundOf(y.arma.transfers[m.id], hash, m.at), hash);
    }
  }

  lemma StartedKeeps(y: Side, y': Side, id: string, o: Outbound, hash: Hash)
    requires Ok(y, hash) && SendStarted(y, y', id, o, hash) && BuildError(o, None).None?
    requires o.idempotencyKey == y.arma.transfers[id].idempotencyKey
    requires o.payload == y.arma.transfers[id].payload && o.recordType == y.arma.transfers[id].recordType
    requires o.payloadHash == hash(o.payload)
    ensures Kept(y, y', hash)
  {
    StartKeepsRecords(y, y', id, o, hash);
    StartKeepsSends(y, y', id, o, hash);
    StartKeepsCalls(y, y', id, o, hash);
  }

  lemma SettleKeeps(y: Side, m: Move, hash: Hash)
    requires Ok(y, hash) && m.SettleSend? && m.outbound in y.calls && m.outbound.transferId in y.arma.transfers
    ensures Kept(y, Settling(y, m), hash)
  {
    var y' := Settling(y, m);
    var o := m.outbound;
    assert CallOk(y, o) && SendOk(y.arma, hash, o) && RecordOk(y.arma, y.sends, o.transferId);
    var retryCount := y.arma.transfers[o.transferId].retryCount;
    DispositionFits(m.answer, o, retryCount);
    SettledReplaces(y.arma, o.transferId, o, Disposed(m.answer, o, retryCount), m.at);
    SettleKeepsRest(y, y', o, hash);
  }

  lemma SettleKeepsRest(y: Side, y': Side, o: Outbound, hash: Hash)
    requires Ok(y, hash) && o in y.calls && CallOk(y, o) && Replaced(y.arma, y'.arma, o.transferId)
    requires y'.sends == y.sends && y'.calls == y.calls - multiset{o}
    requires RecordOk(y'.arma, y'.sends, o.transferId)
    ensures Kept(y, y', hash)
  {
    ReplacedKeepsRecords(y, y', hash, o.transferId);
    forall c | c in y'.calls ensures CallOk(y', c) { OtherCallStays(y, y', o, c); }
  }

  /** A settled call was the only one of its transfer: those left are about other records. */
  lemma OtherCallStays(y: Side, y': Side, o: Outbound, c: Outbound)
    requires CallOk(y, o) && c in y'.calls && CallOk(y, c) && Replaced(y.arma, y'.arma, o.transferId)
    requires y'.sends == y.sends && y'.calls == y.calls - multiset{o}
    ensures CallOk(y', c)
  {
    assert c.transferId != o.transferId;
  }

  lemma PermitKeeps(y: Side, m: Move, hash: Hash)
    requires Ok(y, hash) && m.Permit?
    ensures Kept(y, Moved(y, m, hash), hash)
  {
    var y' := Moved(y, m, hash);
    AuthorizeReplaces(y.arma, y.directory, m.disabled, m.actor, m.id, m.reason, m.reasonLength, m.at);
    if y'.arma == y.arma { QuietKeeps(y, y', hash); } else { AtRestKeeps(y, y', hash, m.id); }
  }

  lemma ReadyKeeps(y: Side, m: Move, hash: Hash)
    requires Ok(y, hash) && m.MakeReady?
    ensures Kept(y, Moved(y, m, hash), hash)
  {
    var y' := Moved(y, m, hash);
    ReadyReplaces(y.arma, y.directory, m.disabled, m.id, m.destination, m.caseId, m.at);
    if y'.arma == y.arma { QuietKeeps(y, y', hash); } else { AtRestKeeps(y, y', hash, m.id); }
  }

  lemma DeclineKeeps(y: Side, m: Move, hash: Hash)
    requires Ok(y, hash) && m.Decline?
    ensures Kept(y, Moved(y, m, hash), hash)
  {
    var y' := Moved(y, m, hash);
    RejectReplaces(y.arma, y.directory, m.actor, m.id, m.reason, m.at);
    if y'.arma == y.arma { QuietKeeps(y, y', hash); } else { AtRestKeeps(y, y', hash, m.id); }
  }

  lemma AtRestKeeps(y: Side, y': Side, hash: Hash, id: string)
    requires Ok(y, hash) && Replaced(y.arma, y'.arma, id)
    requires y'.sends == y.sends && y'.calls == y.calls
    requires !y.arma.transfers[id].status.Sent?
    requires var r, r' := y.arma.transfers[id], y'.arma.transfers[id];
             || (r.status in {Status.Draft, PendingAuthorization} && r'.status.Authorized?
                 && id in y'.arma.authorizations && r'.retryCount == r.retryCount)
             || (r.status.Authorized? && r'.status.ReadyToSend? && r'.retryCount == r.retryCount)
             || r'.status.Rejected?
    ensures Kept(y, y', hash)
  {
    assert RecordOk(y.arma, y.sends, id);
    RestingKeeps(y, y', hash, id);
  }

  /** Nothing but the reconciliations, the directory or the set of calls changes. */
  lemma QuietKeeps(y: Side, y': Side, hash: Hash)
    requires Ok(y, hash)
    requires y'.arma.transfers == y.arma.transfers && y'.arma.byKey == y.arma.byKey
    requires y'.arma.authorizations == y.arma.authorizations
    requires forall a :: a in y.arma.reconciliations ==> a in y'.arma.reconciliations
    requires y'.sends == y.sends && (y'.calls == y.calls || y'.calls == multiset{})
    ensures Kept(y, y', hash)
  {
    forall id | id in y'.arma.transfers ensures RecordOk(y'.arma, y'.sends, id) { assert RecordOk(y.arma, y.sends, id); }
    forall o | o in y'.sends ensures SendOk(y'.arma, hash, o) { assert SendOk(y.arma, hash, o); }
    forall o | o in y'.calls ensures CallOk(y', o) { assert CallOk(y, o); }
  }

  lemma DraftMoveKeeps(y: Side, m: Move, hash: Hash)
    requires Ok(y, hash) && m.Draft? && Possible(y, m)
    ensures Kept(y, Moved(y, m, hash), hash)
  {
    if DraftError(y.arma, y.directory, m.disabled, m.actor, m.draft).None? {
      DraftKeeps(y, m.draft, Moved(y, m, hash), hash);
    }
  }

  lemma ResolveKeepsRecords(s: State, d: Directory, actor: string, id: string, noteLength: nat, resolution: Resolution)
    ensures var s' := Resolve(s, d, actor, id, noteLength, resolution);
            && s'.transfers == s.transfers && s'.byKey == s.byKey && s'.authorizations == s.authorizations
            && (forall a :: a in s.reconciliations ==> a in s'.reconciliations)
  {
  }

  lemma CloseMoveKeeps(y: Side, m: Move, hash: Hash)
    requires Ok(y, hash) && m.CloseReconciliation?
    ensures Kept(y, Moved(y, m, hash), hash)
  {
    ResolveKeepsRecords(y.arma, y.directory, m.actor, m.id, m.noteLength, m.resolution);
    QuietKeeps(y, Moved(y, m, hash), hash);
  }

  lemma QuietMoveKeeps(y: Side, m: Move, hash: Hash)
    requires Ok(y, hash) && (m.ChangeDirectory? || m.ForgetCalls? || !Possible(y, m))
    ensures Kept(y, Moved(y, m, hash), hash)
  {
    QuietKeeps(y, Moved(y, m, hash), hash);
  }

  lemma CallMoveKeeps(y: Side, m: Move, hash: Hash)
    requires Ok(y, hash) && (m.StartSend? || m.SettleSend?) && Possible(y, m)
    ensures Kept(y, Moved(y, m, hash), hash)
  {
    if m.StartSend? { StartKeeps(y, m, hash); } else { SettleKeeps(y, m, hash); }
  }

  /** Every move keeps ARMA's side in order. */
  lemma MoveKeeps(y: Side, m: Move, hash: Hash)
    requires Ok(y, hash)
    ensures Kept(y, Moved(y, m, hash), hash)
  {
    if !Possible(y, m) {
      QuietMoveKeeps(y, m, hash);
    } else {
      match m {
        case Draft(_, _, _) => DraftMoveKeeps(y, m, hash);
        case StartSend(_, _, _, _) => CallMoveKeeps(y, m, hash);
        case SettleSend(_, _, _) => CallMoveKeeps(y, m, hash);
        case Permit(_, _, _, _, _, _) => PermitKeeps(y, m, hash);
        case MakeReady(_, _, _, _, _) => ReadyKeeps(y, m, hash);
        case Decline(_, _, _, _) => DeclineKeeps(y, m, hash);
        case CloseReconciliation(_, _, _, _) => CloseMoveKeeps(y, m, hash);
        case _ => QuietMoveKeeps(y, m, hash);
      }
    }
  }

  lemma {:induction false} RunKeeps(y: Side, moves: seq<Move>, hash: Hash)
    requires Ok(y, hash)
    ensures Ok(Run(y, moves, hash), hash)
    decreases |moves|
  {
    if moves != [] {
      MoveKeeps(y, moves[0], hash);
      RunKeeps(Moved(y, moves[0], hash), moves[1..], hash);
    }
  }

  // ----- The results -----

  /**
   The send discipline, in every state of every run: a transfer is sent at most six times and at
   most one of its sends is outstanding; whatever was sent had been authorized, and carried the
   transfer's one key and one redacted payload.
   */
  lemma SendDiscipline(directory: Directory, moves: seq<Move>, hash: Hash)
    ensures var y := Run(Start(directory), moves, hash);
            && (forall id :: Count(y.sends, id) <= RV.MAX_RETRY_ATTEMPTS + 1)
            && (forall a, b :: a in y.calls && b in y.calls ==>
                  (a.transferId == b.transferId ==> a == b && y.calls[a] == 1))
            && (forall o :: o in y.sends ==> o.transferId in y.arma.authorizations && IsRedacted(o.recordType, o.payload))
            && (forall a, b :: a in y.sends && b in y.sends ==>
                  && (a.transferId == b.transferId <==> a.idempotencyKey == b.idempotencyKey)
                  && (a.transferId == b.transferId ==> a.payload == b.payload && a.payloadHash == b.payloadHash))
  {
    RunKeeps(Start(directory), moves, hash);
    var y := Run(Start(directory), moves, hash);
    forall id ensures Count(y.sends, id) <= RV.MAX_RETRY_ATTEMPTS + 1 { SendsAreFew(y, hash, id); }
    forall a, b | a in y.calls && b in y.calls && a.transferId == b.transferId
      ensures a == b && y.calls[a] == 1
    {
      assert CallOk(y, a);
    }
    forall o | o in y.sends
      ensures o.transferId in y.arma.authorizations && IsRedacted(o.recordType, o.payload)
    {
      assert SendOk(y.arma, hash, o) && RecordOk(y.arma, y.sends, o.transferId);
    }
    forall a, b | a in y.sends && b in y.sends
      ensures a.transferId == b.transferId <==> a.idempotencyKey == b.idempotencyKey
      ensures a.transferId == b.transferId ==> a.payload == b.payload && a.payloadHash == b.payloadHash
    {
      SendsAlike(y, hash, a, b);
    }
  }

  lemma SendsAreFew(y: Side, hash: Hash, id: string)
    requires Ok(y, hash)
    ensures Count(y.sends, id) <= RV.MAX_RETRY_ATTEMPTS + 1
  {
    if id in y.arma.transfers { assert RecordOk(y.arma, y.sends, id); } else { NeverSent(y.sends, id, y.arma, hash); }
  }

  lemma SendsAlike(y: Side, hash: Hash, a: Outbound, b: Outbound)
    requires Ok(y, hash) && a in y.sends && b in y.sends
    ensures a.transferId == b.transferId <==> a.idempotencyKey == b.idempotencyKey
    ensures a.transferId == b.transferId ==> a.payload == b.payload && a.payloadHash == b.payloadHash
  {
    assert SendOk(y.arma, hash, a) && SendOk(y.arma, hash, b);
    assert RecordOk(y.arma, y.sends, a.transferId) && RecordOk(y.arma, y.sends, b.transferId);
  }

  /** A transfer that is in doubt or done: ARMA will not send it again. */
  predicate Closed(y: Side, id: string) {
    id in y.arma.transfers
    && y.arma.transfers[id].status in {ReconciliationRequired, Accepted, Rejected}
  }

  /** Only a send sends, and only a transfer that was ready. */
  lemma SendSparesClosed(y: Side, m: Move, hash: Hash, id: string)
    requires m.StartSend? && Closed(y, id) && forall t :: t in y.arma.transfers ==> RecordOk(y.arma, y.sends, t)
    ensures Count(Sending(y, m, hash).sends, id) == Count(y.sends, id)
  {
    if SendError(y.arma, hash, m.disabled, m.id, m.at, m.screening).None? {
      assert RecordOk(y.arma, y.sends, m.id);
    }
  }

  lemma OthersSendNothing(y: Side, m: Move, hash: Hash)
    requires !m.StartSend?
    ensures Moved(y, m, hash).sends == y.sends
  {
  }

  lemma MoveSends(y: Side, m: Move, hash: Hash, id: string)
    requires Ok(y, hash) && Closed(y, id)
    ensures Count(Moved(y, m, hash).sends, id) == Count(y.sends, id)
  {
    if m.StartSend? { SendSparesClosed(y, m, hash, id); } else { OthersSendNothing(y, m, hash); }
  }

  /**
   A transfer that reached RECONCILIATION_REQUIRED has a reconciliation record and is never sent
   again; ACCEPTED and REJECTED are final.
   */
  lemma {:induction false} ClosedForGood(y: Side, later: seq<Move>, hash: Hash, id: string)
    requires Ok(y, hash) && Closed(y, id)
    ensures var y' := Run(y, later, hash);
            var before := y.arma.transfers[id].status;
            && Closed(y', id) && Count(y'.sends, id) == Count(y.sends, id)
            && (!before.ReconciliationRequired? ==> y'.arma.transfers[id].status == before)
            && (before.ReconciliationRequired? ==>
                  id in y'.arma.reconciliations
                  && y'.arma.transfers[id].status in {ReconciliationRequired, Rejected})
    decreases |later|
  {
    assert RecordOk(y.arma, y.sends, id);
    if later != [] {
      var y1 := Moved(y, later[0], hash);
      MoveKeeps(y, later[0], hash);
      MoveSends(y, later[0], hash, id);
      assert Follows(y.arma.transfers[id], y1.arma.transfers[id]);
      ClosedForGood(y1, later[1..], hash, id);
      ReconciliationsStay(y1, later[1..], hash, id);
    }
  }

  lemma {:induction false} ReconciliationsStay(y: Side, later: seq<Move>, hash: Hash, id: string)
    requires Ok(y, hash)
    ensures id in y.arma.reconciliations ==> id in Run(y, later, hash).arma.reconciliations
    decreases |later|
  {
    if later != [] {
      MoveKeeps(y, later[0], hash);
      ReconciliationsStay(Moved(y, later[0], hash), later[1..], hash, id);
    }
  }

  // ----- Why drafts must come with fresh ids -----

  /** A draft leaves an accepted transfer standing exactly when it is refused or names another id. */
  lemma DraftSparesAcceptanceIff(s: State, d: Directory, disabled: bool, actor: string, q: DraftRequest, id: string)
    requires id in s.transfers && s.transfers[id].status.Accepted?
    ensures CreateDraft(s, d, disabled, actor, q).transfers[id].status.Accepted?
            <==> (q.transferId != id || DraftError(s, d, disabled, actor, q).Some?)
  {
  }

  /** Such a draft exists: a known actor, a new key, the id of an accepted transfer. */
  lemma AcceptanceCanBeOverwritten(s: State, id: string)
    requires id in s.transfers && s.transfers[id].status.Accepted? && "another-key" !in s.byKey
    ensures var d := Directory(map["officer" := User("org", {}, true)], map[], map[]);
            var q := DraftRequest(id, "another-key", "org", None, None, "TRANSFER_STATUS", "r", Json.Obj([]));
            CreateDraft(s, d, false, "officer", q).transfers[id].status == Status.Draft
  {
  }
}
