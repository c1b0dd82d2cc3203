/**
 What stands behind everything ARMA sends: an authorization by a qualified human, and a destination
 that an active mapping led to, each at the time it was given.
 */
module ArmaClearances {
  import opened Wrappers
  import Redaction
  import opened ArmaTransfers
  import opened ArmaSends

  // ----- Who may authorize, and where a transfer may go -----

  /** A human with the authorizer's role, of this organisation. */
  predicate Qualified(d: Directory, actor: string, org: string) {
    && actor in d.users && d.users[actor].human && d.users[actor].orgId == org
    && "LAW_SHIELD_DISCLOSURE_AUTHORIZER" in d.users[actor].roles
  }

  predicate AboutIncident(incidentId: Option<string>) {
    incidentId.Some? && incidentId.value != ""
  }

  /** An active organisation mapping and, with an incident, an active case mapping to the destination. */
  predicate Linked(d: Directory, org: string, incidentId: Option<string>, destination: Option<string>) {
    && org in d.orgMappings && d.orgMappings[org].active
    && (AboutIncident(incidentId) ==>
          && (org, incidentId.value) in d.caseMappings && d.caseMappings[(org, incidentId.value)].active
          && Some(d.caseMappings[(org, incidentId.value)].lawShieldOrgId) == destination)
  }

  /** The active mapping leads there; with an incident, so does the case mapping, which names the case. */
  predicate Routed(d: Directory, org: string, incidentId: Option<string>, destination: string, caseId: Option<string>) {
    && org in d.orgMappings && d.orgMappings[org].active && d.orgMappings[org].lawShieldOrgId == destination
    && destination != ""
    && (AboutIncident(incidentId) ==>
          && (org, incidentId.value) in d.caseMappings
          && var m := d.caseMappings[(org, incidentId.value)];
             && m.active && m.lawShieldOrgId == destination
             && m.lawShieldCaseId != "" && caseId == Some(m.lawShieldCaseId))
  }

  /**
   When an authorization goes through: exactly for a draft, with sending enabled, from a qualified
   human of the transfer's organisation, with its links in place and a reason of ten letters.
   */
  lemma AuthorizedIff(s: State, d: Directory, disabled: bool, actor: string, id: string, reason: string,
                      reasonLength: nat, at: int)
    requires id in s.transfers
    ensures var r, s' := s.transfers[id], Authorize(s, d, disabled, actor, id, reason, reasonLength, at);
            && (s' != s <==>
                  && !disabled && (r.status.Draft? || r.status.PendingAuthorization?)
                  && Qualified(d, actor, r.armaOrgId) && Linked(d, r.armaOrgId, r.incidentId, r.lawShieldOrgId)
                  && reasonLength >= 10)
            && (s' != s ==>
                  && id in s'.transfers && s'.transfers[id].status.Authorized?
                  && s'.transfers[id].authorizedBy == Some(actor) && id in s'.authorizations
                  && s'.authorizations[id].authorizedBy == actor && s'.authorizations[id].reason == reason
                  && s'.authorizations[id].armaOrgId == r.armaOrgId
                  && s'.authorizations[id].minimumNecessaryFields == r.minimumNecessaryFields
                  && s'.authorizations[id].redactedFields == r.redactedFields)
  {
    var s' := Authorize(s, d, disabled, actor, id, reason, reasonLength, at);
    assert AuthorizeError(s, d, disabled, actor, id, reasonLength).None? ==> |s'.audit| == |s.audit| + 1;
  }

  /** Where a transfer goes when its sender names no other place. */
  function Target(destination: Option<string>, r: Record): Option<string> {
    if destination.Some? then destination else r.lawShieldOrgId
  }

  /** When a transfer becomes ready: exactly from AUTHORIZED, with sending enabled and its route in place. */
  lemma ReadyIff(s: State, d: Directory, disabled: bool, id: string, destination: Option<string>,
                 caseId: Option<string>, at: int)
    requires id in s.transfers
    ensures var r, s' := s.transfers[id], Ready(s, d, disabled, id, destination, caseId, at);
            && (s' != s <==>
                  && !disabled && r.status.Authorized? && Target(destination, r).Some?
                  && (exists c :: Routed(d, r.armaOrgId, r.incidentId, Target(destination, r).value, c)))
            && (s' != s ==>
                  && id in s'.transfers && s'.transfers[id].status.ReadyToSend?
                  && s'.transfers[id].lawShieldOrgId == Target(destination, r)
                  && Routed(d, r.armaOrgId, r.incidentId, Target(destination, r).value,
                            s'.transfers[id].lawShieldCaseId))
  {
    var r, s' := s.transfers[id], Ready(s, d, disabled, id, destination, caseId, at);
    assert ReadyError(s, d, disabled, id, destination, caseId).None? ==> |s'.audit| == |s.audit| + 1;
    if s' != s {
      assert Routed(d, r.armaOrgId, r.incidentId, Target(destination, r).value, s'.transfers[id].lawShieldCaseId);
    }
  }

  /** A human may reject what is not in flight, accepted or rejected; nobody else may. */
  lemma RejectedIff(s: State, d: Directory, actor: string, id: string, reason: string, at: int)
    requires id in s.transfers
    ensures var r, s' := s.transfers[id], Reject(s, d, actor, id, reason, at);
            && (s' != s <==>
                  && actor in d.users && d.users[actor].human
                  && !r.status.Sent? && !r.status.ReceiptVerified? && !r.status.Accepted? && !r.status.Rejected?)
            && (s' != s ==> id in s'.transfers && s'.transfers[id].status.Rejected?)
  {
    var s' := Reject(s, d, actor, id, reason, at);
    assert RejectError(s, d, actor, id).None? ==> |s'.audit| == |s.audit| + 1;
  }

  /**
   When a draft is stored: exactly with sending enabled, for a known human, a record type with a
   policy, an object and an unused key; and then with its payload redacted.
   */
  lemma DraftedIff(s: State, d: Directory, disabled: bool, actor: string, q: DraftRequest)
    ensures var s' := CreateDraft(s, d, disabled, actor, q);
            && (s' != s <==>
                  && !disabled && actor in d.users && d.users[actor].human
                  && Redaction.PolicyFor(q.recordType).Some? && q.rawPayload.Obj? && q.idempotencyKey !in s.byKey)
            && (s' != s ==>
                  && q.transferId in s'.transfers && s'.byKey == s.byKey[q.idempotencyKey := q.transferId]
                  && var r := s'.transfers[q.transferId];
                     && r.status.Draft? && r.idempotencyKey == q.idempotencyKey && r.armaOrgId == q.armaOrgId
                     && r.authorizedBy.None? && r.payloadHash.None? && r.retryCount == 0
                     && r.payload
                        == Redaction.RedactedFields(Redaction.PolicyFor(q.recordType).value, q.rawPayload.fields))
  {
    var s' := CreateDraft(s, d, disabled, actor, q);
    assert DraftError(s, d, disabled, actor, q).None? ==> |s'.audit| == |s.audit| + 1;
  }

  /** All of a request's fields are there. */
  predicate AllThere(o: Outbound) {
    && o.transferId != "" && o.idempotencyKey != "" && o.armaOrgId != "" && o.lawShieldOrgId != "" && o.recordType != ""
    && o.recordId != "" && o.authorizedBy != "" && o.payloadHash != ""
  }

  /** When a send goes out: exactly with sending enabled, for a ready transfer, whole and past text screening. */
  lemma SentIff(y: Side, m: Move, hash: Hash)
    requires m.StartSend?
    ensures var y' := Moved(y, m, hash);
            var ready := !m.disabled && m.id in y.arma.transfers && y.arma.transfers[m.id].status.ReadyToSend?;
            && (y'.sends != y.sends <==>
                  ready && AllThere(OutboundOf(y.arma.transfers[m.id], hash, m.at)) && m.screening.None?)
            && (y'.sends != y.sends ==> y'.sends == y.sends + [OutboundOf(y.arma.transfers[m.id], hash, m.at)])
  {
    assert SendError(y.arma, hash, m.disabled, m.id, m.at, m.screening).None? ==>
        |Moved(y, m, hash).sends| == |y.sends| + 1;
  }

  // ----- Over whole runs -----

  /** The directory in force when this move of the run was made. */
  ghost function DirectoryAt(start: Side, moves: seq<Move>, hash: Hash, i: nat): Directory
    requires i <= |moves|
  {
    Run(start, moves[..i], hash).directory
  }

  /** At some moment of the run this human, then qualified, authorized the transfer with a reason. */
  ghost predicate Permitted(start: Side, moves: seq<Move>, hash: Hash, id: string, org: string, actor: string) {
    exists i :: && 0 <= i < |moves| && moves[i].Permit? && moves[i].id == id && moves[i].actor == actor
                && moves[i].reasonLength >= 10 && Qualified(DirectoryAt(start, moves, hash, i), actor, org)
  }

  /** At some moment of the run the transfer was made ready, when its route was in place. */
  ghost predicate Cleared(start: Side, moves: seq<Move>, hash: Hash, id: string, org: string,
                          incidentId: Option<string>, destination: string, caseId: Option<string>) {
    exists i :: && 0 <= i < |moves| && moves[i].MakeReady? && moves[i].id == id
                && Routed(DirectoryAt(start, moves, hash, i), org, incidentId, destination, caseId)
  }

  ghost predicate RecordCleared(start: Side, moves: seq<Move>, hash: Hash, id: string, r: Record) {
    && (PastAuthorization(r) ==>
          r.authorizedBy.Some? && Permitted(start, moves, hash, id, r.armaOrgId, r.authorizedBy.value))
    && (PastAuthorization(r) && !r.status.Authorized? ==>
          && r.lawShieldOrgId.Some?
          && Cleared(start, moves, hash, id, r.armaOrgId, r.incidentId, r.lawShieldOrgId.value, r.lawShieldCaseId))
  }

  ghost predicate SendCleared(start: Side, moves: seq<Move>, hash: Hash, o: Outbound) {
    && Permitted(start, moves, hash, o.transferId, o.armaOrgId, o.authorizedBy)
    && Cleared(start, moves, hash, o.transferId, o.armaOrgId, o.incidentId, o.lawShieldOrgId, o.lawShieldCaseId)
  }

  ghost predicate AllCleared(start: Side, moves: seq<Move>, hash: Hash, y: Side) {
    && (forall id :: id in y.arma.transfers ==> RecordCleared(start, moves, hash, id, y.arma.transfers[id]))
    && (forall o :: o in y.sends ==> SendCleared(start, moves, hash, o))
  }

  lemma {:induction false} RunSnoc(y: Side, moves: seq<Move>, m: Move, hash: Hash)
    ensures Run(y, moves + [m], hash) == Moved(Run(y, moves, hash), m, hash)
    decreases |moves|
  {
    if moves == [] {
      assert [m][1..] == [] && moves + [m] == [m];
    } else {
      assert (moves + [m])[1..] == moves[1..] + [m];
      RunSnoc(Moved(y, moves[0], hash), moves[1..], m, hash);
    }
  }

  lemma PermittedStays(start: Side, moves: seq<Move>, m: Move, hash: Hash, id: string, org: string, actor: string)
    requires Permitted(start, moves, hash, id, org, actor)
    ensures Permitted(start, moves + [m], hash, id, org, actor)
  {
    var i :| && 0 <= i < |moves| && moves[i].Permit? && moves[i].id == id && moves[i].actor == actor
             && moves[i].reasonLength >= 10 && Qualified(DirectoryAt(start, moves, hash, i), actor, org);
    assert (moves + [m])[..i] == moves[..i] && (moves + [m])[i] == moves[i];
    assert Qualified(DirectoryAt(start, moves + [m], hash, i), actor, org);
  }

  lemma ClearedStays(start: Side, moves: seq<Move>, m: Move, hash: Hash, id: string, org: string,
                     incidentId: Option<string>, destination: string, caseId: Option<string>)
    requires Cleared(start, moves, hash, id, org, incidentId, destination, caseId)
    ensures Cleared(start, moves + [m], hash, id, org, incidentId, destination, caseId)
  {
    var i :| && 0 <= i < |moves| && moves[i].MakeReady? && moves[i].id == id
             && Routed(DirectoryAt(start, moves, hash, i), org, incidentId, destination, caseId);
    assert (moves + [m])[..i] == moves[..i] && (moves + [m])[i] == moves[i];
    assert Routed(DirectoryAt(start, moves + [m], hash, i), org, incidentId, destination, caseId);
  }

  lemma RecordStays(start: Side, moves: seq<Move>, m: Move, hash: Hash, id: string, r: Record)
    requires RecordCleared(start, moves, hash, id, r)
    ensures RecordCleared(start, moves + [m], hash, id, r)
  {
    if PastAuthorization(r) {
      PermittedStays(start, moves, m, hash, id, r.armaOrgId, r.authorizedBy.value);
      if !r.status.Authorized? {
        ClearedStays(start, moves, m, hash, id, r.armaOrgId, r.incidentId, r.lawShieldOrgId.value, r.lawShieldCaseId);
      }
    }
  }

  lemma SendStays(start: Side, moves: seq<Move>, m: Move, hash: Hash, o: Outbound)
    requires SendCleared(start, moves, hash, o)
    ensures SendCleared(start, moves + [m], hash, o)
  {
    PermittedStays(start, moves, m, hash, o.transferId, o.armaOrgId, o.authorizedBy);
    ClearedStays(start, moves, m, hash, o.transferId, o.armaOrgId, o.incidentId, o.lawShieldOrgId, o.lawShieldCaseId);
  }

  /** The same parties, at a later stage that asks for no more. */
  predicate SameParties(r: Record, r': Record) {
    && r'.armaOrgId == r.armaOrgId && r'.incidentId == r.incidentId && r'.authorizedBy == r.authorizedBy
    && r'.lawShieldOrgId == r.lawShieldOrgId && r'.lawShieldCaseId == r.lawShieldCaseId
    && (PastAuthorization(r') ==> PastAuthorization(r))
    && (PastAuthorization(r') && !r'.status.Authorized? ==> !r.status.Authorized?)
  }

  lemma DraftKeepsParties(s: State, d: Directory, disabled: bool, actor: string, q: DraftRequest, id: string)
    requires q.transferId !in s.transfers && id in CreateDraft(s, d, disabled, actor, q).transfers
    ensures var r' := CreateDraft(s, d, disabled, actor, q).transfers[id];
            if id in s.transfers then r' == s.transfers[id] else !PastAuthorization(r')
  {
  }

  lemma SendKeepsParties(s: State, hash: Hash, sent: string, at: int, id: string)
    requires sent in s.transfers && s.transfers[sent].status.ReadyToSend?
    requires id in WithSend(s, hash, sent, at).transfers
    ensures id in s.transfers && SameParties(s.transfers[id], WithSend(s, hash, sent, at).transfers[id])
  {
  }

  lemma SettlingKeepsParties(s: State, o: Outbound, d: Disposition, at: int, id: string)
    requires o.transferId in s.transfers && s.transfers[o.transferId].status.Sent?
    requires id in Settled(s, o.transferId, o, d, at).transfers
    ensures id in s.transfers && SameParties(s.transfers[id], Settled(s, o.transferId, o, d, at).transfers[id])
  {
  }

  lemma RejectKeepsParties(s: State, d: Directory, actor: string, rejected: string, reason: string, at: int, id: string)
    requires id in Reject(s, d, actor, rejected, reason, at).transfers
    ensures id in s.transfers && SameParties(s.transfers[id], Reject(s, d, actor, rejected, reason, at).transfers[id])
  {
  }

  lemma CallKeepsParties(y: Side, m: Move, hash: Hash, id: string)
    requires (m.StartSend? || m.SettleSend?) && id in Moved(y, m, hash).arma.transfers
    requires m.SettleSend? && Possible(y, m) ==> y.arma.transfers[m.outbound.transferId].status.Sent?
    ensures id in y.arma.transfers && SameParties(y.arma.transfers[id], Moved(y, m, hash).arma.transfers[id])
  {
    if m.StartSend? {
      if SendError(y.arma, hash, m.disabled, m.id, m.at, m.screening).None? {
        SendKeepsParties(y.arma, hash, m.id, m.at, id);
      }
    } else if Possible(y, m) {
      var d := Disposed(m.answer, m.outbound, y.arma.transfers[m.outbound.transferId].retryCount);
      SettlingKeepsParties(y.arma, m.outbound, d, m.at, id);
    }
  }

  lemma QuietKeepsParties(y: Side, m: Move, hash: Hash)
    requires m.CloseReconciliation? || m.ChangeDirectory? || m.ForgetCalls?
    ensures Moved(y, m, hash).arma.transfers == y.arma.transfers
  {
    if m.CloseReconciliation? {
      ResolveKeepsRecords(y.arma, y.directory, m.actor, m.id, m.noteLength, m.resolution);
    }
  }

  /** Of the moves only an authorization, and making ready, say anything new about the parties. */
  lemma OthersKeepParties(y: Side, m: Move, hash: Hash, id: string)
    requires !m.Permit? && !m.MakeReady? && id in Moved(y, m, hash).arma.transfers
    requires m.SettleSend? && Possible(y, m) ==> y.arma.transfers[m.outbound.transferId].status.Sent?
    ensures var r' := Moved(y, m, hash).arma.transfers[id];
            if id in y.arma.transfers then SameParties(y.arma.transfers[id], r') else !PastAuthorization(r')
  {
    if m.Draft? {
      if Possible(y, m) { DraftKeepsParties(y.arma, y.directory, m.disabled, m.actor, m.draft, id); }
    } else {
      if m.Decline? { RejectKeepsParties(y.arma, y.directory, m.actor, m.id, m.reason, m.at, id); }
      else if m.StartSend? || m.SettleSend? { CallKeepsParties(y, m, hash, id); }
      else { QuietKeepsParties(y, m, hash); }
    }
  }

  lemma PermitClears(start: Side, moves: seq<Move>, y: Side, m: Move, hash: Hash, id: string)
    requires y == Run(start, moves, hash) && m.Permit? && id in Moved(y, m, hash).arma.transfers
    requires id in y.arma.transfers && RecordCleared(start, moves, hash, id, y.arma.transfers[id])
    ensures RecordCleared(start, moves + [m], hash, id, Moved(y, m, hash).arma.transfers[id])
  {
    var r' := Moved(y, m, hash).arma.transfers[id];
    if r' == y.arma.transfers[id] {
      RecordStays(start, moves, m, hash, id, r');
    } else {
      AuthorizedIff(y.arma, y.directory, m.disabled, m.actor, m.id, m.reason, m.reasonLength, m.at);
      assert (moves + [m])[..|moves|] == moves && (moves + [m])[|moves|] == m;
      assert Qualified(DirectoryAt(start, moves + [m], hash, |moves|), m.actor, r'.armaOrgId);
    }
  }

  lemma ReadyClears(start: Side, moves: seq<Move>, y: Side, m: Move, hash: Hash, id: string)
    requires y == Run(start, moves, hash) && m.MakeReady? && id in Moved(y, m, hash).arma.transfers
    requires id in y.arma.transfers && RecordCleared(start, moves, hash, id, y.arma.transfers[id])
    ensures RecordCleared(start, moves + [m], hash, id, Moved(y, m, hash).arma.transfers[id])
  {
    var r, r' := y.arma.transfers[id], Moved(y, m, hash).arma.transfers[id];
    if r' == r {
      RecordStays(start, moves, m, hash, id, r');
    } else {
      ReadyIff(y.arma, y.directory, m.disabled, m.id, m.destination, m.caseId, m.at);
      PermittedStays(start, moves, m, hash, id, r.armaOrgId, r.authorizedBy.value);
      assert (moves + [m])[..|moves|] == moves && (moves + [m])[|moves|] == m;
      assert Routed(DirectoryAt(start, moves + [m], hash, |moves|), r.armaOrgId, r.incidentId,
                    r'.lawShieldOrgId.value, r'.lawShieldCaseId);
    }
  }

  lemma SettlesTheSent(y: Side, m: Move, hash: Hash)
    requires Ok(y, hash) && m.SettleSend? && Possible(y, m)
    ensures m.outbound.transferId in y.arma.transfers && y.arma.transfers[m.outbound.transferId].status.Sent?
  {
    assert CallOk(y, m.outbound);
  }

  lemma SamePartiesClear(start: Side, moves: seq<Move>, m: Move, hash: Hash, id: string, r: Record, r': Record)
    requires RecordCleared(start, moves, hash, id, r) && SameParties(r, r')
    ensures RecordCleared(start, moves + [m], hash, id, r')
  {
    RecordStays(start, moves, m, hash, id, r);
  }

  lemma OthersClear(start: Side, moves: seq<Move>, y: Side, m: Move, hash: Hash, id: string)
    requires Ok(y, hash) && !m.Permit? && !m.MakeReady? && id in Moved(y, m, hash).arma.transfers
    requires id in y.arma.transfers ==> RecordCleared(start, moves, hash, id, y.arma.transfers[id])
    ensures RecordCleared(start, moves + [m], hash, id, Moved(y, m, hash).arma.transfers[id])
  {
    if m.SettleSend? && Possible(y, m) { SettlesTheSent(y, m, hash); }
    OthersKeepParties(y, m, hash, id);
    if id in y.arma.transfers {
      SamePartiesClear(start, moves, m, hash, id, y.arma.transfers[id], Moved(y, m, hash).arma.transfers[id]);
    }
  }

  lemma ClearingAddsNothing(y: Side, m: Move, hash: Hash, id: string)
    requires (m.Permit? || m.MakeReady?) && id in Moved(y, m, hash).arma.transfers
    ensures id in y.arma.transfers
  {
  }

  lemma RecordsClear(start: Side, moves: seq<Move>, y: Side, m: Move, hash: Hash, id: string)
    requires y == Run(start, moves, hash) && Ok(y, hash)
    requires id in y.arma.transfers ==> RecordCleared(start, moves, hash, id, y.arma.transfers[id])
    requires id in Moved(y, m, hash).arma.transfers
    ensures RecordCleared(start, moves + [m], hash, id, Moved(y, m, hash).arma.transfers[id])
  {
    if m.Permit? || m.MakeReady? {
      ClearingAddsNothing(y, m, hash, id);
      if m.Permit? { PermitClears(start, moves, y, m, hash, id); } else { ReadyClears(start, moves, y, m, hash, id); }
    } else {
      OthersClear(start, moves, y, m, hash, id);
    }
  }

  /** What a send adds is what its ready record says. */
  lemma SendIsItsRecord(y: Side, m: Move, hash: Hash, o: Outbound)
    requires Ok(y, hash) && m.StartSend? && o in Moved(y, m, hash).sends && o !in y.sends
    ensures o.transferId in y.arma.transfers
    ensures var r := y.arma.transfers[o.transferId];
            && r.status.ReadyToSend? && o.armaOrgId == r.armaOrgId && o.incidentId == r.incidentId
            && o.authorizedBy == OrEmpty(r.authorizedBy) && o.lawShieldOrgId == OrEmpty(r.lawShieldOrgId)
            && o.lawShieldCaseId == r.lawShieldCaseId
  {
    if m.id in y.arma.transfers { assert RecordOk(y.arma, y.sends, m.id); }
  }

  lemma SendsClear(start: Side, moves: seq<Move>, y: Side, m: Move, hash: Hash, o: Outbound)
    requires y == Run(start, moves, hash) && Ok(y, hash) && AllCleared(start, moves, hash, y)
    requires o in Moved(y, m, hash).sends
    ensures SendCleared(start, moves + [m], hash, o)
  {
    if o in y.sends {
      SendStays(start, moves, m, hash, o);
    } else {
      if !m.StartSend? { OthersSendNothing(y, m, hash); }
      SendIsItsRecord(y, m, hash, o);
      var r := y.arma.transfers[o.transferId];
      assert RecordCleared(start, moves, hash, o.transferId, r);
      RecordStays(start, moves, m, hash, o.transferId, r);
    }
  }

  lemma MoveClears(start: Side, moves: seq<Move>, y: Side, m: Move, hash: Hash)
    requires y == Run(start, moves, hash) && Ok(y, hash) && AllCleared(start, moves, hash, y)
    ensures AllCleared(start, moves + [m], hash, Moved(y, m, hash))
  {
    var y' := Moved(y, m, hash);
    forall id | id in y'.arma.transfers
      ensures RecordCleared(start, moves + [m], hash, id, y'.arma.transfers[id])
    {
      RecordsClear(start, moves, y, m, hash, id);
    }
    forall o | o in y'.sends ensures SendCleared(start, moves + [m], hash, o) {
      SendsClear(start, moves, y, m, hash, o);
    }
  }

  lemma NothingToClear(directory: Directory, hash: Hash)
    ensures AllCleared(Start(directory), [], hash, Start(directory))
  {
  }

  lemma {:induction false} RunClears(directory: Directory, moves: seq<Move>, hash: Hash)
    ensures AllCleared(Start(directory), moves, hash, Run(Start(directory), moves, hash))
    decreases |moves|
  {
    var start := Start(directory);
    if moves == [] {
      NothingToClear(directory, hash);
    } else {
      var before, m := moves[..|moves| - 1], moves[|moves| - 1];
      assert moves == before + [m];
      RunClears(directory, before, hash);
      RunKeeps(start, before, hash);
      RunSnoc(start, before, m, hash);
      MoveClears(start, before, Run(start, before, hash), m, hash);
    }
  }

  /**
   Behind every send of every run stand an authorization that a qualified human of the sending
   organisation gave with a reason, and the moment it was made ready, when active mappings led from
   that organisation, and from its incident, to the destination and the case it was sent to.
   */
  lemma EverySendWasCleared(directory: Directory, moves: seq<Move>, hash: Hash, o: Outbound)
    requires o in Run(Start(directory), moves, hash).sends
    ensures Permitted(Start(directory), moves, hash, o.transferId, o.armaOrgId, o.authorizedBy)
    ensures Cleared(Start(directory), moves, hash, o.transferId, o.armaOrgId, o.incidentId, o.lawShieldOrgId,
                    o.lawShieldCaseId)
  {
    RunClears(directory, moves, hash);
  }
}
