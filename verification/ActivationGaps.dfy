/**
 Where the activation service does less than its comments promise, and exactly when: what resume
 sends, which answers count towards the bound, and which intents are collapsed.
 */
module ActivationGaps {
  import opened Wrappers
  import PartnerClient
  import S = PartnerServer
  import opened ActivationService
  import AS = ActivationSends

  /** What resume sends: unsent records, but also every ACTIVE one. */
  lemma ResumeSendsIff(s: State, id: string)
    ensures (var call := Resume(s, id, Lives).1; call.Some? && call.value.CreateCall?)
            <==> id in s.activations && s.activations[id].status in {Pending, ReadyToActivate, Active, ReceiptVerified}
  {
  }

  // ----- Which answers count towards the bound -----

  lemma OneMoreQuery(s: State, id: string, n: nat, r: Reconciliation)
    ensures Queries(s.(reconciliations := s.reconciliations[(id, n) := r]), id)
            == Queries(s, id) + (if (id, n) in s.reconciliations then 0 else 1)
  {
    var before := set k | k in s.reconciliations && k.0 == id;
    var after := set k | k in s.reconciliations[(id, n) := r] && k.0 == id;
    assert after == before + {(id, n)};
  }

  /**
   An answer counts by its query's number and by nothing else: whatever it says, a failed query as
   much as a 404, it adds one to the count, unless another query with its number was answered
   before. A 404 whose number reaches the bound sends.
   */
  lemma AnswersCountByNumber(s: State, c: Call, answer: StatusOutcome, bound: nat)
    requires c.ReconcileCall? && c.id in s.activations
    ensures Queries(CompleteReconcile(s, c, answer, bound, Lives).0, c.id)
            == Queries(s, c.id) + (if (c.id, c.attemptNo) in s.reconciliations then 0 else 1)
    ensures (var call := CompleteReconcile(s, c, NotFound, bound, Lives).1; call.Some?) <==> c.attemptNo >= bound
  {
    OneMoreQuery(s, c.id, c.attemptNo, Reconciliation(Open, c.identity));
    OneMoreQuery(s, c.id, c.attemptNo, Reconciliation(Blocked, c.identity));
    OneMoreQuery(s, c.id, c.attemptNo, Reconciliation(ResolvedActive, c.identity));
    OneMoreQuery(s, c.id, c.attemptNo, Reconciliation(ResolvedNotFound, c.identity));
  }

  /** A record in doubt whose queries so far were `n`, numbered 1 to n. */
  predicate Asked(y: AS.Side, id: string, identity: string, n: nat) {
    && id in y.store.activations && y.store.activations[id].status.ReconciliationRequired?
    && IdentityOf(y.store.activations[id]) == Some(identity)
    && y.calls == multiset{}
    && y.store.reconciliations.Keys == set i | 1 <= i <= n :: (id, i)
  }

  lemma AskedQueries(y: AS.Side, id: string, identity: string, n: nat)
    requires Asked(y, id, identity, n)
    ensures Queries(y.store, id) == n
  {
    var keys := set k | k in y.store.reconciliations && k.0 == id;
    assert keys == set i | 1 <= i <= n :: (id, i);
    CountTo(id, n);
  }

  lemma {:induction false} CountTo(id: string, n: nat)
    ensures |set i | 1 <= i <= n :: (id, i)| == n
  {
    if n > 0 {
      CountTo(id, n - 1);
      assert (set i | 1 <= i <= n :: (id, i)) == (set i | 1 <= i <= n - 1 :: (id, i)) + {(id, n)};
    } else {
      assert (set i | 1 <= i <= n :: (id, i)) == {};
    }
  }

  /** Ask, and hear this. */
  function Query(id: string, identity: string, n: nat, answer: StatusOutcome, bound: nat): seq<AS.Move> {
    [AS.DoReconcile(id), AS.ReconcileDone(ReconcileCall(id, identity, n + 1), answer, bound, Lives)]
  }

  lemma TwoMoves(y: AS.Side, a: AS.Move, b: AS.Move, rest: seq<AS.Move>)
    ensures AS.Run(y, [a, b] + rest) == AS.Run(AS.Moved(AS.Moved(y, a), b), rest)
  {
    var moves := [a, b] + rest;
    assert moves[1..] == [b] + rest && moves[1..][1..] == rest;
  }

  lemma FailedAnswerIsNoted(y: AS.Side, c: Call, bound: nat)
    requires c in y.calls && c.ReconcileCall? && c.id in y.store.activations
    ensures AS.Moved(y, AS.ReconcileDone(c, Unknown, bound, Lives))
            == y.(store := Noted(y.store, c, Open), calls := y.calls - multiset{c})
  {
  }

  lemma QueryBegins(y: AS.Side, id: string, identity: string, n: nat)
    requires Asked(y, id, identity, n)
    ensures AS.Moved(y, AS.DoReconcile(id)) == y.(calls := multiset{ReconcileCall(id, identity, n + 1)})
  {
    AskedQueries(y, id, identity, n);
  }

  lemma FailedQueryCounts(y: AS.Side, id: string, identity: string, n: nat, bound: nat)
    requires Asked(y, id, identity, n)
    ensures var q := Query(id, identity, n, Unknown, bound);
            var y' := AS.Moved(AS.Moved(y, q[0]), q[1]);
            Asked(y', id, identity, n + 1) && y'.sent == y.sent
  {
    var c := ReconcileCall(id, identity, n + 1);
    QueryBegins(y, id, identity, n);
    FailedAnswerIsNoted(y.(calls := multiset{c}), c, bound);
    assert (set i | 1 <= i <= n + 1 :: (id, i)) == (set i | 1 <= i <= n :: (id, i)) + {(id, n + 1)};
  }

  /** Every query failed but the last, which was answered with 404. */
  predicate OneNotFound(moves: seq<AS.Move>) {
    && moves != [] && moves[|moves| - 1].ReconcileDone? && moves[|moves| - 1].answer.NotFound?
    && (forall i :: 0 <= i < |moves| - 1 && moves[i].ReconcileDone? ==> moves[i].answer.Unknown?)
  }

  lemma AnswerSends(y: AS.Side, c: Call, bound: nat)
    requires c in y.calls && c.ReconcileCall? && c.id in y.store.activations && c.attemptNo >= bound
    ensures AS.Moved(y, AS.ReconcileDone(c, NotFound, bound, Lives)).sent == y.sent + [c.id]
  {
  }

  lemma LastAnswer(y: AS.Side, id: string, identity: string, bound: nat)
    requires 1 <= bound && Asked(y, id, identity, bound - 1)
    ensures var q := Query(id, identity, bound - 1, NotFound, bound);
            AS.Moved(AS.Moved(y, q[0]), q[1]).sent == y.sent + [id]
  {
    var c := ReconcileCall(id, identity, bound);
    QueryBegins(y, id, identity, bound - 1);
    AnswerSends(y.(calls := multiset{c}), c, bound);
  }

  lemma LastAnswerSends(y: AS.Side, id: string, identity: string, bound: nat)
    requires 1 <= bound && Asked(y, id, identity, bound - 1)
    ensures AS.Run(y, Query(id, identity, bound - 1, NotFound, bound)).sent == y.sent + [id]
  {
    var q := Query(id, identity, bound - 1, NotFound, bound);
    LastAnswer(y, id, identity, bound);
    assert q == [q[0], q[1]] + [];
    TwoMoves(y, q[0], q[1], []);
  }

  lemma FailedQueryRuns(y: AS.Side, id: string, identity: string, n: nat, bound: nat) returns (y': AS.Side)
    requires Asked(y, id, identity, n)
    ensures Asked(y', id, identity, n + 1) && y'.sent == y.sent
    ensures forall rest :: AS.Run(y, Query(id, identity, n, Unknown, bound) + rest) == AS.Run(y', rest)
  {
    var q := Query(id, identity, n, Unknown, bound);
    y' := AS.Moved(AS.Moved(y, q[0]), q[1]);
    FailedQueryCounts(y, id, identity, n, bound);
    forall rest ensures AS.Run(y, q + rest) == AS.Run(y', rest) {
      assert q + rest == [q[0], q[1]] + rest;
      TwoMoves(y, q[0], q[1], rest);
    }
  }

  lemma OneMoreFailure(id: string, identity: string, n: nat, bound: nat, rest: seq<AS.Move>)
    requires OneNotFound(rest)
    ensures OneNotFound(Query(id, identity, n, Unknown, bound) + rest)
  {
  }

  /** Queries from number n + 1 up to the bound, all failed but the last, send. */
  lemma {:induction false} ImpatientSends(y: AS.Side, id: string, identity: string, n: nat, bound: nat)
    returns (moves: seq<AS.Move>)
    requires n < bound && Asked(y, id, identity, n)
    ensures |moves| == 2 * (bound - n) && OneNotFound(moves)
    ensures AS.Run(y, moves).sent == y.sent + [id]
    decreases bound - n
  {
    if n + 1 == bound {
      moves := Query(id, identity, n, NotFound, bound);
      LastAnswerSends(y, id, identity, bound);
    } else {
      var y' := FailedQueryRuns(y, id, identity, n, bound);
      var rest := ImpatientSends(y', id, identity, n + 1, bound);
      moves := Query(id, identity, n, Unknown, bound) + rest;
      assert AS.Run(y, moves) == AS.Run(y', rest);
      OneMoreFailure(id, identity, n, bound, rest);
    }
  }

  /** A first create whose answer was lost. */
  function Doubted(requestId: string): seq<AS.Move> {
    [AS.DoActivate(false, Intent("arma", "capability", "binding", Some("key")), Preflight(Some("org"), false, false),
                   "stable", "r", Lives),
     AS.CreateDone(CreateCall("r", "org", "capability", "binding", "key"), requestId,
                   Failed(PartnerClient.Ambiguous, None, None))]
  }

  lemma DoubtedIsAsked(requestId: string)
    ensures var m := Doubted(requestId);
            var y := AS.Moved(AS.Moved(AS.START, m[0]), m[1]);
            Asked(y, "r", S.ActivationIdFor(requestId), 0) && y.sent == ["r"]
  {
    var c := CreateCall("r", "org", "capability", "binding", "key");
    var y1 := AS.Moved(AS.START, Doubted(requestId)[0]);
    assert y1.calls == multiset{c} && c in y1.calls;
    assert S.ActivationIdFor(requestId) != "";
    assert (set i | 1 <= i <= 0 :: ("r", i)) == {};
  }

  /**
   One 404 can be enough: whatever the bound, a run from the start with bound - 1 failed status
   queries and a single 404 sends the create again.
   */
  lemma OneNotFoundCanBeEnough(requestId: string, bound: nat) returns (queries: seq<AS.Move>)
    requires 1 <= bound
    ensures |queries| == 2 * bound && OneNotFound(queries)
    ensures AS.Run(AS.START, Doubted(requestId) + queries).sent == ["r", "r"]
  {
    var m := Doubted(requestId);
    DoubtedIsAsked(requestId);
    queries := ImpatientSends(AS.Moved(AS.Moved(AS.START, m[0]), m[1]), "r", S.ActivationIdFor(requestId), 0, bound);
    assert m + queries == [m[0], m[1]] + queries;
    TwoMoves(AS.START, m[0], m[1], queries);
  }

  lemma QueryBeginsTwice(y: AS.Side, id: string, identity: string, n: nat)
    requires Asked(y, id, identity, n)
    ensures var c := ReconcileCall(id, identity, n + 1);
            AS.Moved(AS.Moved(y, AS.DoReconcile(id)), AS.DoReconcile(id)) == y.(calls := multiset{c, c})
  {
    AskedQueries(y, id, identity, n);
    QueryBegins(y, id, identity, n);
  }

  /** An answer that settles nothing: an unknown one, or a 404 short of the bound. */
  predicate LeavesOpen(c: Call, answer: StatusOutcome, bound: nat)
    requires c.ReconcileCall?
  {
    answer.Unknown? || (answer.NotFound? && c.attemptNo < bound)
  }

  lemma AnswerIsStored(y: AS.Side, c: Call, answer: StatusOutcome, bound: nat)
    requires c in y.calls && c.ReconcileCall? && c.id in y.store.activations
    ensures var y' := AS.Moved(y, AS.ReconcileDone(c, answer, bound, Lives));
            && y'.store == CompleteReconcile(y.store, c, answer, bound, Lives).0
            && (LeavesOpen(c, answer, bound) ==>
                  y'.calls == y.calls - multiset{c} && y'.store == Noted(y.store, c, Open))
  {
  }

  /** Of two answers to queries of one number only the first adds to the count. */
  lemma TwinAnswersCountOnce(y: AS.Side, c: Call, one: StatusOutcome, other: StatusOutcome, bound: nat)
    requires c.ReconcileCall? && y.calls == multiset{c, c} && c.id in y.store.activations
    requires LeavesOpen(c, one, bound) && (c.id, c.attemptNo) !in y.store.reconciliations
    ensures Queries(AS.Moved(AS.Moved(y, AS.ReconcileDone(c, one, bound, Lives)),
                             AS.ReconcileDone(c, other, bound, Lives)).store, c.id)
            == Queries(y.store, c.id) + 1
  {
    AnswerIsStored(y, c, one, bound);
    var y1 := AS.Moved(y, AS.ReconcileDone(c, one, bound, Lives));
    OneMoreQuery(y.store, c.id, c.attemptNo, Reconciliation(Open, c.identity));
    SecondTwinAddsNothing(y1, c, other, bound);
  }

  lemma SecondTwinAddsNothing(y: AS.Side, c: Call, answer: StatusOutcome, bound: nat)
    requires c in y.calls && c.ReconcileCall? && c.id in y.store.activations
    requires (c.id, c.attemptNo) in y.store.reconciliations
    ensures Queries(AS.Moved(y, AS.ReconcileDone(c, answer, bound, Lives)).store, c.id) == Queries(y.store, c.id)
  {
    AnswerIsStored(y, c, answer, bound);
    AnswersCountByNumber(y.store, c, answer, bound);
  }

  /** Two queries begun side by side carry one number: together their answers count once. */
  lemma ConcurrentQueriesCountOnce(y: AS.Side, id: string, identity: string, n: nat,
                                   one: StatusOutcome, other: StatusOutcome, bound: nat)
    requires Asked(y, id, identity, n) && LeavesOpen(ReconcileCall(id, identity, n + 1), one, bound)
    ensures var c := ReconcileCall(id, identity, n + 1);
            var begun := AS.Moved(AS.Moved(y, AS.DoReconcile(id)), AS.DoReconcile(id));
            var y' := AS.Moved(AS.Moved(begun, AS.ReconcileDone(c, one, bound, Lives)),
                               AS.ReconcileDone(c, other, bound, Lives));
            begun.calls == multiset{c, c} && Queries(y'.store, id) == n + 1
  {
    var c := ReconcileCall(id, identity, n + 1);
    AskedQueries(y, id, identity, n);
    QueryBeginsTwice(y, id, identity, n);
    TwinAnswersCountOnce(y.(calls := multiset{c, c}), c, one, other, bound);
  }

  // ----- Which intents are collapsed -----

  /**
   With an activation of the same binding and capability in flight, activate makes a second one
   exactly when the first was not sent yet, the intent gives no key, and no record holds the key
   derived from it, provided switch, mapping and preflight let it through.
   */
  lemma SecondRecordIff(s: State, disabled: bool, q: Intent, p: Preflight, stableKey: string, newId: string)
    requires FindForBinding(s, s.order, q.bindingId, q.capability).Some?
    ensures var e := s.activations[FindForBinding(s, s.order, q.bindingId, q.capability).value];
            ActivateGate(s, disabled, q, p, stableKey).Fresh?
            <==> (&& e.status in {Pending, ReadyToActivate} && q.idempotencyKey.None?
                  && (forall id :: id in s.order && id in s.activations ==> s.activations[id].idempotencyKey != stableKey)
                  && !disabled && p.patchesOrgId.Some? && !p.paused && !p.refused)
    ensures ActivateGate(s, disabled, q, p, stableKey).Fresh? ==>
              Activate(s, disabled, q, p, stableKey, newId, Lives).1
              == Some(CreateCall(newId, p.patchesOrgId.value, q.capability, q.bindingId, stableKey))
  {
  }

  /**
   Such a second record comes about, and both are sent: one process dies before it sends under the
   intent's own key, the next is given no key, and the first record is resumed.
   */
  lemma OmittedKeyDoubles(ownKey: string, stableKey: string, first: string, second: string)
    requires ownKey != stableKey && first != second
    ensures var y := AS.Run(AS.START, Doubling(ownKey, stableKey, first, second));
            && y.calls == multiset{CreateCall(second, "org", "capability", "binding", stableKey),
                                   CreateCall(first, "org", "capability", "binding", ownKey)}
            && y.sent == [second, first]
  {
    var moves := Doubling(ownKey, stableKey, first, second);
    UnsentIsLeft(ownKey, stableKey, first, second);
    var y2 := SecondIsSent(Unsent(ownKey, first), ownKey, stableKey, first, second);
    ResumeSends(y2, first);
    ThreeMoves(AS.START, moves[0], moves[1], moves[2]);
  }

  lemma ResumeSends(y: AS.Side, id: string)
    requires id in y.store.activations && y.store.activations[id].status.Pending?
    ensures var r := y.store.activations[id];
            var y' := AS.Moved(y, AS.DoResume(id, Lives));
            && y'.calls == y.calls + multiset{CreateCall(id, r.patchesOrgId, r.capability, r.bindingId, r.idempotencyKey)}
            && y'.sent == y.sent + [id]
  {
  }

  /** Die before sending under the own key; activate without a key; resume the first. */
  function Doubling(ownKey: string, stableKey: string, first: string, second: string): seq<AS.Move> {
    [AS.DoActivate(false, Intent("arma", "capability", "binding", Some(ownKey)), PASSES, stableKey, first, DiesFirst),
     AS.DoActivate(false, Intent("arma", "capability", "binding", None), PASSES, stableKey, second, Lives),
     AS.DoResume(first, Lives)]
  }

  const PASSES := Preflight(Some("org"), false, false)

  function Unsent(ownKey: string, first: string): AS.Side {
    AS.Side(State(map[first := NewRecord(first, ownKey, Intent("arma", "capability", "binding", Some(ownKey)),
                                         "org", Pending, None)],
                  [first], map[]), multiset{}, [])
  }

  lemma UnsentIsLeft(ownKey: string, stableKey: string, first: string, second: string)
    ensures AS.Moved(AS.START, Doubling(ownKey, stableKey, first, second)[0]) == Unsent(ownKey, first)
  {
  }

  lemma SecondIsSent(y: AS.Side, ownKey: string, stableKey: string, first: string, second: string)
    returns (y': AS.Side)
    requires y == Unsent(ownKey, first) && ownKey != stableKey && first != second
    ensures y' == AS.Moved(y, Doubling(ownKey, stableKey, first, second)[1])
    ensures first in y'.store.activations && y'.store.activations[first] == y.store.activations[first]
    ensures y'.calls == multiset{CreateCall(second, "org", "capability", "binding", stableKey)} && y'.sent == [second]
  {
    y' := AS.Moved(y, Doubling(ownKey, stableKey, first, second)[1]);
    assert FindForBinding(y.store, y.store.order, "binding", "capability") == Some(first);
    SecondRecordIff(y.store, false, Intent("arma", "capability", "binding", None), PASSES, stableKey, second);
  }

  lemma ThreeMoves(y: AS.Side, a: AS.Move, b: AS.Move, c: AS.Move)
    ensures AS.Run(y, [a, b, c]) == AS.Moved(AS.Moved(AS.Moved(y, a), b), c)
  {
    var rest := [c];
    TwoMoves(y, a, b, rest);
    assert [a, b] + rest == [a, b, c] && rest[1..] == [];
  }
}
