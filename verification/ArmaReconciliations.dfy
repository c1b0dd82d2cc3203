/**
 What a reconciliation guarantees, over every run of ARMA: it is only ever resolved by an
 authorizer of the transfer's organisation, and RESOLVED is final. QUARANTINED is not: a
 quarantined reconciliation can be resolved once more.
 */
module ArmaReconciliations {
  import opened Wrappers
  import opened ArmaTransfers
  import AS = ArmaSends

  /** A reconciliation belongs to a transfer that is in doubt, or was and has been rejected. */
  ghost predicate OfClosed(s: State) {
    forall id :: id in s.reconciliations ==>
      id in s.transfers && s.transfers[id].status in {ReconciliationRequired, Status.Rejected}
  }

  /** The reconciliations of a state are those of another, but for one that was opened. */
  predicate Opens(s: State, s': State, id: string) {
    || s'.reconciliations == s.reconciliations
    || (&& id in s'.reconciliations && s'.reconciliations == s.reconciliations[id := s'.reconciliations[id]]
        && s'.reconciliations[id].resolution.Open? && s'.reconciliations[id].resolver.None?)
  }

  lemma SettledOpens(s: State, id: string, o: Outbound, d: Disposition, at: int)
    requires id in s.transfers
    ensures var s' := Settled(s, id, o, d, at);
            && Opens(s, s', id)
            && (s'.reconciliations != s.reconciliations ==>
                  id in s'.transfers && s'.transfers[id].status.ReconciliationRequired?)
  {
  }

  lemma SettlingOpens(y: AS.Side, m: AS.Move)
    requires m.SettleSend? && m.outbound.transferId in y.arma.transfers
    ensures var s' := AS.Settling(y, m).arma;
            && Opens(y.arma, s', m.outbound.transferId)
            && (s'.reconciliations != y.arma.reconciliations ==>
                  m.outbound.transferId in s'.transfers
                  && s'.transfers[m.outbound.transferId].status.ReconciliationRequired?)
  {
    var id := m.outbound.transferId;
    SettledOpens(y.arma, id, m.outbound, Disposed(m.answer, m.outbound, y.arma.transfers[id].retryCount), m.at);
  }

  lemma QuietMovesOpenNothing(y: AS.Side, m: AS.Move, hash: AS.Hash)
    requires !m.SettleSend? && !m.CloseReconciliation?
    ensures AS.Moved(y, m, hash).arma.reconciliations == y.arma.reconciliations
  {
  }

  /** A human in the authorizer role of this organisation. */
  predicate IsAuthorizer(d: Directory, actor: string, orgId: string) {
    actor in d.users && d.users[actor].human && AUTHORIZER_ROLE in d.users[actor].roles && d.users[actor].orgId == orgId
  }

  /** What closing does: nothing, or one reconciliation that was not yet RESOLVED gets its answer. */
  predicate ResolvesOne(y: AS.Side, m: AS.Move, s': State)
    requires m.CloseReconciliation?
  {
    var s, id := y.arma, m.id;
    && id in s.reconciliations && !s.reconciliations[id].resolution.Resolved? && !m.resolution.Open?
    && id in s.transfers && m.noteLength >= 10
    && IsAuthorizer(y.directory, m.actor, s.transfers[id].armaOrgId)
    && s' == s.(reconciliations := s.reconciliations[id :=
                  s.reconciliations[id].(resolution := m.resolution, resolver := Some(m.actor))])
  }

  lemma ClosingResolvesOne(y: AS.Side, m: AS.Move, hash: AS.Hash)
    requires m.CloseReconciliation?
    ensures var s' := AS.Moved(y, m, hash).arma; s' == y.arma || ResolvesOne(y, m, s')
  {
  }

  /** What one move does to the reconciliations: nothing, one opened, or one resolved. */
  lemma MoveOpensOrResolves(y: AS.Side, m: AS.Move, hash: AS.Hash)
    requires AS.Ok(y, hash)
    ensures var s' := AS.Moved(y, m, hash).arma;
            || s'.reconciliations == y.arma.reconciliations
            || (m.CloseReconciliation? && ResolvesOne(y, m, s'))
            || (m.SettleSend? && Opens(y.arma, s', m.outbound.transferId) && m.outbound.transferId in s'.transfers
                && m.outbound.transferId in y.arma.transfers
                && y.arma.transfers[m.outbound.transferId].status.Sent?
                && s'.transfers[m.outbound.transferId].status.ReconciliationRequired?)
  {
    if m.CloseReconciliation? { ClosingResolvesOne(y, m, hash); }
    else if !m.SettleSend? { QuietMovesOpenNothing(y, m, hash); }
    else if AS.Possible(y, m) { assert AS.CallOk(y, m.outbound); SettlingOpens(y, m); }
  }

  lemma ProgressKeepsOfClosed(s: State, s': State)
    requires OfClosed(s) && AS.Progress(s, s')
    requires forall id :: id in s'.reconciliations && id !in s.reconciliations ==>
               id in s'.transfers && s'.transfers[id].status.ReconciliationRequired?
    ensures OfClosed(s')
  {
    forall id | id in s'.reconciliations && id in s.reconciliations
      ensures id in s'.transfers && s'.transfers[id].status in {ReconciliationRequired, Status.Rejected}
    {
      assert AS.Follows(s.transfers[id], s'.transfers[id]);
    }
  }

  lemma MoveKeepsOfClosed(y: AS.Side, m: AS.Move, hash: AS.Hash)
    requires AS.Ok(y, hash) && OfClosed(y.arma)
    ensures OfClosed(AS.Moved(y, m, hash).arma)
  {
    AS.MoveKeeps(y, m, hash);
    MoveOpensOrResolves(y, m, hash);
    ProgressKeepsOfClosed(y.arma, AS.Moved(y, m, hash).arma);
  }

  lemma {:induction false} RunKeepsOfClosed(y: AS.Side, moves: seq<AS.Move>, hash: AS.Hash)
    requires AS.Ok(y, hash) && OfClosed(y.arma)
    ensures AS.Ok(AS.Run(y, moves, hash), hash) && OfClosed(AS.Run(y, moves, hash).arma)
    decreases |moves|
  {
    if moves != [] {
      AS.MoveKeeps(y, moves[0], hash);
      MoveKeepsOfClosed(y, moves[0], hash);
      RunKeepsOfClosed(AS.Moved(y, moves[0], hash), moves[1..], hash);
    }
  }

  ghost predicate Reachable(y: AS.Side, hash: AS.Hash) {
    exists directory, moves :: y == AS.Run(AS.Start(directory), moves, hash)
  }

  lemma ReachableIsOk(y: AS.Side, hash: AS.Hash)
    requires Reachable(y, hash)
    ensures AS.Ok(y, hash) && OfClosed(y.arma)
  {
    var directory, moves :| y == AS.Run(AS.Start(directory), moves, hash);
    RunKeepsOfClosed(AS.Start(directory), moves, hash);
  }

  /**
   Only a human authorizer of the transfer's organisation, with a note, resolves anything: whatever
   else happens, a reconciliation stays as it is or is opened. Its answer, the resolver's name and
   nothing else are what a resolution changes.
   */
  lemma OnlyAuthorizersResolve(y: AS.Side, m: AS.Move, hash: AS.Hash, id: string)
    requires Reachable(y, hash) && id in AS.Moved(y, m, hash).arma.reconciliations
    ensures var s' := AS.Moved(y, m, hash).arma;
            || s'.reconciliations[id].resolution.Open?
            || (id in y.arma.reconciliations && s'.reconciliations[id] == y.arma.reconciliations[id])
            || (m.CloseReconciliation? && m.id == id && ResolvesOne(y, m, s'))
  {
    ReachableIsOk(y, hash);
    MoveOpensOrResolves(y, m, hash);
  }

  lemma MoveSparesResolved(y: AS.Side, m: AS.Move, hash: AS.Hash, id: string)
    requires AS.Ok(y, hash) && OfClosed(y.arma)
    requires id in y.arma.reconciliations && y.arma.reconciliations[id].resolution.Resolved?
    ensures var s' := AS.Moved(y, m, hash).arma;
            id in s'.reconciliations && s'.reconciliations[id] == y.arma.reconciliations[id]
  {
    MoveOpensOrResolves(y, m, hash);
  }

  lemma {:induction false} ResolvedStays(y: AS.Side, later: seq<AS.Move>, hash: AS.Hash, id: string)
    requires AS.Ok(y, hash) && OfClosed(y.arma)
    requires id in y.arma.reconciliations && y.arma.reconciliations[id].resolution.Resolved?
    ensures var s' := AS.Run(y, later, hash).arma;
            id in s'.reconciliations && s'.reconciliations[id] == y.arma.reconciliations[id]
    decreases |later|
  {
    if later != [] {
      AS.MoveKeeps(y, later[0], hash);
      MoveKeepsOfClosed(y, later[0], hash);
      MoveSparesResolved(y, later[0], hash, id);
      ResolvedStays(AS.Moved(y, later[0], hash), later[1..], hash, id);
    }
  }

  /** RESOLVED is final: answer, resolver and all stay through every later run. */
  lemma ResolvedIsFinal(y: AS.Side, later: seq<AS.Move>, hash: AS.Hash, id: string)
    requires Reachable(y, hash)
    requires id in y.arma.reconciliations && y.arma.reconciliations[id].resolution.Resolved?
    ensures var s' := AS.Run(y, later, hash).arma;
            id in s'.reconciliations && s'.reconciliations[id] == y.arma.reconciliations[id]
  {
    ReachableIsOk(y, hash);
    ResolvedStays(y, later, hash, id);
  }

  /** QUARANTINED is not final: what resolved it can do so once more. */
  lemma QuarantinedCanBeResolved(y: AS.Side, m: AS.Move, hash: AS.Hash)
    requires m.CloseReconciliation? && m.resolution.Quarantined? && AS.Moved(y, m, hash) != y
    ensures var y' := AS.Moved(y, m, hash);
            && m.id in y'.arma.reconciliations && y'.arma.reconciliations[m.id].resolution.Quarantined?
            && var again := AS.Moved(y', m.(resolution := Resolved), hash).arma;
               m.id in again.reconciliations && again.reconciliations[m.id].resolution.Resolved?
  {
  }
}
