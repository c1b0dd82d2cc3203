/**
 ARMA, the gateway and the processor together, over a network that loses, delays, repeats and
 misdirects messages.

 A state is everything ever sent plus the parties' stores; an event is one atomic step of one
 party. A message stays available once sent, so an event may use it late, twice or never. Two
 things cannot be made up: a request signed by ARMA and a receipt signed by the gateway.
 */
module LawShieldProtocol {
  import opened Wrappers
  import Redaction
  import RV = ReceiptVerifier
  import Json
  import A = ArmaTransfers
  import AS = ArmaSends
  import G = LawShieldGateway
  import S = LawShieldStore
  import P = LawShieldProcessor
  import D = LawShieldDecisions

  /** A signed request on the wire. The signature covers the nonce and the time of signing. */
  datatype Wire = Wire(outbound: A.Outbound, nonce: string, signedAt: int)

  /** ARMA's envelopes expire this long after they were sent. */
  const ENVELOPE_LIFETIME_MS := 15 * 60 * 1000

  datatype System = System(
    side: AS.Side,                          // ARMA
    requests: set<Wire>,                    // every signed request so far
    gatewaySeen: map<string, int>,
    forwarded: set<Wire>,                   // requests the gateway passed on
    tables: S.Tables,                       // the processor's store
    replies: set<P.Reply>,                  // every acceptance the processor returned
    receipts: set<RV.GatewayReceipt>)       // every receipt the gateway signed

  datatype Event =
    | Arma(move: AS.Move, nonce: string, signedAt: int)
    | Forward(wire: Wire, guarded: bool, at: int)
    | Decide(wire: Wire, bodyHash: string, invalid: Option<string>, fp: S.FailPoints,
             disabled: bool, verdict: P.Verdict, at: int, wallClock: int)
    | SignReceipt(wire: Wire, reply: P.Reply)

  function Initial(directory: A.Directory): System {
    System(AS.Start(directory), {}, map[], {}, S.EMPTY_TABLES, {}, {})
  }

  /** What the canonical builder lets out is what the canonical validator takes in. */
  predicate Sendable(o: A.Outbound) {
    A.BuildError(o, None).None?
  }

  function EnvelopeOf(o: A.Outbound): P.Envelope
    requires Sendable(o)
  {
    P.EnvelopeFields(o.transferId, o.idempotencyKey,
                     S.Subject(o.armaOrgId, o.lawShieldOrgId, o.incidentId, o.lawShieldCaseId,
                               o.recordType, o.recordId, o.authorizedBy),
                     Json.Obj(o.payload), o.payloadHash, o.sentAt)
  }

  /** The gateway's forward of a wire; by now the validator may object (`invalid`), say to its age. */
  function RequestOf(w: Wire, bodyHash: string, invalid: Option<string>): P.Request
    requires Sendable(w.outbound)
  {
    P.Request(if invalid.Some? then
                P.Invalid(invalid.value, Some(w.outbound.transferId), Some(w.outbound.idempotencyKey))
              else P.Valid(EnvelopeOf(w.outbound)),
              bodyHash, Some(w.nonce), Some(bodyHash), Some(P.SCHEMA_VERSION), Some(w.outbound.transferId))
  }

  function StepOf(e: Event): D.Step
    requires e.Decide? && Sendable(e.wire.outbound)
  {
    D.Step(e.fp, e.disabled, RequestOf(e.wire, e.bodyHash, e.invalid), e.verdict, e.at, e.wallClock)
  }

  /** Only a receipt the gateway signed carries a signature that matches. */
  predicate Genuine(y: System, a: A.Answer) {
    a.Receipt? && a.wire.signatureMatches ==> a.wire.receipt.Some? && a.wire.receipt.value in y.receipts
  }

  /** The gateway's time checks: a fresh signature and an envelope that has not expired. */
  predicate PassesGateway(w: Wire, at: int) {
    P.Distance(at, w.signedAt) <= S.MAX_CLOCK_SKEW_MS && at < w.outbound.sentAt + ENVELOPE_LIFETIME_MS
  }

  /** Whether the event can happen in this state. */
  predicate Enabled(y: System, e: Event) {
    match e
    case Arma(m, _, _) => m.SettleSend? ==> Genuine(y, m.answer)
    case Forward(w, _, at) => w in y.requests && PassesGateway(w, at)
    case Decide(w, _, invalid, _, _, _, at, _) =>
      && w in y.forwarded && Sendable(w.outbound)
      && (at >= w.outbound.sentAt + ENVELOPE_LIFETIME_MS ==> invalid.Some?)
    case SignReceipt(w, r) => w in y.forwarded && Sendable(w.outbound) && r in y.replies && r.Acceptance?
  }

  /** What ARMA's move put on the wire. */
  function NewRequests(before: seq<A.Outbound>, after: seq<A.Outbound>, nonce: string, signedAt: int): set<Wire> {
    if |after| > |before| then {Wire(after[|after| - 1], nonce, signedAt)} else {}
  }

  /** The processor's new tables, and its acceptance on the wire if it gave one. */
  function Answered(y: System, result: (S.Tables, P.Outcome)): System {
    y.(tables := result.0, replies := y.replies + (if D.Accepts(result.1) then {result.1.reply} else {}))
  }

  function Next(y: System, e: Event, hash: AS.Hash): System {
    if !Enabled(y, e) then y
    else
      match e
      case Arma(m, nonce, signedAt) =>
        var side := AS.Moved(y.side, m, hash);
        y.(side := side, requests := y.requests + NewRequests(y.side.sends, side.sends, nonce, signedAt))
      case Forward(w, guarded, at) =>
        if guarded && w.nonce in G.Fresh(y.gatewaySeen, at) then y
        else y.(gatewaySeen := G.Fresh(y.gatewaySeen, at)[w.nonce := at], forwarded := y.forwarded + {w})
      case Decide(_, _, _, _, _, _, _, _) => Answered(y, D.Apply(y.tables, StepOf(e)))
      case SignReceipt(w, r) =>
        (match G.Respond(EnvelopeOf(w.outbound), G.Answered(true, Some(r)))
         case Signed(receipt) => y.(receipts := y.receipts + {receipt})
         case Failed(_, _, _, _) => y)
  }

  function Run(y: System, events: seq<Event>, hash: AS.Hash): System
    decreases |events|
  {
    if events == [] then y else Run(Next(y, events[0], hash), events[1..], hash)
  }

  // ----- The invariant -----

  /** The transfer is ARMA's, under this key and with this content. */
  predicate Known(arma: A.State, hash: AS.Hash, id: string, key: string, payloadHash: string) {
    id in arma.transfers && arma.transfers[id].idempotencyKey == key && hash(arma.transfers[id].payload) == payloadHash
  }

  /** A decided key is the key of the transfer it was decided for, with that transfer's content. */
  ghost predicate BindingsKnown(arma: A.State, s: S.Tables, hash: AS.Hash) {
    forall key :: key in s.idempotency ==>
      Known(arma, hash, s.idempotency[key].transferId, key, s.idempotency[key].payloadHash)
  }

  /** A stored transfer is one of ARMA's, and its key has been decided. */
  ghost predicate TransfersKnown(arma: A.State, s: S.Tables, hash: AS.Hash) {
    forall id :: id in s.transfers ==>
      && Known(arma, hash, id, s.transfers[id].idempotencyKey, s.transfers[id].payloadHash)
      && s.transfers[id].idempotencyKey in s.idempotency
  }

  /** The processor holds this transfer accepted, with this content and under this receipt. */
  predicate Held(s: S.Tables, id: string, payloadHash: string, receiptId: string) {
    && id in s.transfers && s.transfers[id].status.Accepted? && s.transfers[id].payloadHash == payloadHash
    && s.transfers[id].receiptId == Some(receiptId)
    && receiptId in s.receipts
    && s.receipts[receiptId].transferId == id && s.receipts[receiptId].payloadHash == payloadHash
  }

  predicate ReplyOk(s: S.Tables, r: P.Reply) {
    r.Acceptance? && r.transferId != "" && r.payloadHash != "" && Held(s, r.transferId, r.payloadHash, r.receiptId)
  }

  predicate ReceiptOk(s: S.Tables, r: RV.GatewayReceipt) {
    Held(s, r.transferId, r.receivedPayloadHash, r.receiptId)
  }

  ghost predicate WordsOk(s: S.Tables, replies: set<P.Reply>, receipts: set<RV.GatewayReceipt>) {
    && (forall r :: r in replies ==> ReplyOk(s, r))
    && (forall r :: r in receipts ==> ReceiptOk(s, r))
  }

  /** What ARMA believes accepted, the processor holds accepted: same content, same receipt. */
  predicate Agrees(arma: A.State, s: S.Tables, id: string)
    requires id in arma.transfers
  {
    var r := arma.transfers[id];
    r.status.Accepted? ==>
      r.receiptId.Some? && r.payloadHash.Some? && Held(s, id, r.payloadHash.value, r.receiptId.value)
  }

  ghost predicate SidesAgree(arma: A.State, s: S.Tables) {
    forall id :: id in arma.transfers ==> Agrees(arma, s, id)
  }

  ghost predicate WireOk(y: System) {
    && (forall w :: w in y.requests ==> w.outbound in y.side.sends)
    && y.forwarded <= y.requests
  }

  /** ARMA and the processor, each in order and in agreement. */
  ghost predicate PartiesOk(side: AS.Side, s: S.Tables, hash: AS.Hash) {
    && AS.Ok(side, hash)
    && D.FourTables(s)
    && BindingsKnown(side.arma, s, hash)
    && TransfersKnown(side.arma, s, hash)
    && SidesAgree(side.arma, s)
  }

  ghost predicate Ok(y: System, hash: AS.Hash) {
    && PartiesOk(y.side, y.tables, hash)
    && WireOk(y)
    && WordsOk(y.tables, y.replies, y.receipts)
  }

  // ----- ARMA's moves keep it -----

  lemma ProgressKeepsKnown(arma: A.State, arma': A.State, s: S.Tables, hash: AS.Hash)
    requires AS.Progress(arma, arma') && BindingsKnown(arma, s, hash) && TransfersKnown(arma, s, hash)
    ensures BindingsKnown(arma', s, hash) && TransfersKnown(arma', s, hash)
  {
  }

  /** Only a settling send accepts a transfer. */
  lemma OnlySettlingAccepts(y: AS.Side, m: AS.Move, hash: AS.Hash, id: string)
    requires !m.SettleSend?
    requires id in AS.Moved(y, m, hash).arma.transfers && AS.Moved(y, m, hash).arma.transfers[id].status.Accepted?
    ensures id in y.arma.transfers && y.arma.transfers[id] == AS.Moved(y, m, hash).arma.transfers[id]
  {
  }

  /** What an accepted record rests on after a settled send: what it had, or a verified receipt. */
  lemma SettlingAccepts(y: AS.Side, m: AS.Move, id: string)
    requires m.SettleSend? && m.outbound.transferId in y.arma.transfers
    requires y.arma.transfers[m.outbound.transferId].status.Sent?
    requires y.arma.transfers[m.outbound.transferId].payloadHash == Some(m.outbound.payloadHash)
    requires id in AS.Settling(y, m).arma.transfers && AS.Settling(y, m).arma.transfers[id].status.Accepted?
    ensures var r' := AS.Settling(y, m).arma.transfers[id];
            || (id in y.arma.transfers && y.arma.transfers[id] == r')
            || (&& m.outbound.transferId == id && m.answer.Receipt?
                && RV.VerifyReceipt(m.answer.wire, A.ExpectedOf(m.outbound)).Success?
                && r'.receiptId == Some(RV.VerifyReceipt(m.answer.wire, A.ExpectedOf(m.outbound)).value.receiptId)
                && r'.payloadHash == Some(m.outbound.payloadHash))
  {
    var t := m.outbound.transferId;
    var d := A.Disposed(m.answer, m.outbound, y.arma.transfers[t].retryCount);
    AS.DispositionFits(m.answer, m.outbound, y.arma.transfers[t].retryCount);
    AS.SettledReplaces(y.arma, t, m.outbound, d, m.at);
  }

  /** A receipt that verifies against a send names that send's transfer and content. */
  lemma VerifiedNamesTheSend(a: A.Answer, o: A.Outbound)
    requires a.Receipt? && Sendable(o) && RV.VerifyReceipt(a.wire, A.ExpectedOf(o)).Success?
    ensures var receipt := RV.VerifyReceipt(a.wire, A.ExpectedOf(o)).value;
            && a.wire.signatureMatches && a.wire.receipt == Some(receipt)
            && receipt.transferId == o.transferId && receipt.receivedPayloadHash == o.payloadHash
  {
  }

  lemma SettlingKeepsAgreement(y: System, m: AS.Move, hash: AS.Hash)
    requires Ok(y, hash) && m.SettleSend? && m.outbound in y.side.calls && Genuine(y, m.answer)
    requires m.outbound.transferId in y.side.arma.transfers
    ensures SidesAgree(AS.Settling(y.side, m).arma, y.tables)
  {
    var o := m.outbound;
    var arma' := AS.Settling(y.side, m).arma;
    assert AS.CallOk(y.side, o) && AS.SendOk(y.side.arma, hash, o);
    forall id | id in arma'.transfers && arma'.transfers[id].status.Accepted?
      ensures Agrees(arma', y.tables, id)
    {
      SettlingAccepts(y.side, m, id);
      if id in y.side.arma.transfers && y.side.arma.transfers[id] == arma'.transfers[id] {
        assert Agrees(y.side.arma, y.tables, id);
      } else {
        VerifiedNamesTheSend(m.answer, o);
        assert ReceiptOk(y.tables, RV.VerifyReceipt(m.answer.wire, A.ExpectedOf(o)).value);
      }
    }
  }

  lemma OtherMoveKeepsAgreement(y: System, m: AS.Move, hash: AS.Hash)
    requires Ok(y, hash) && !m.SettleSend?
    ensures SidesAgree(AS.Moved(y.side, m, hash).arma, y.tables)
  {
    var arma' := AS.Moved(y.side, m, hash).arma;
    forall id | id in arma'.transfers && arma'.transfers[id].status.Accepted?
      ensures Agrees(arma', y.tables, id)
    {
      OnlySettlingAccepts(y.side, m, hash, id);
      assert Agrees(y.side.arma, y.tables, id);
    }
  }

  lemma ImpossibleMoveIs(y: AS.Side, m: AS.Move, hash: AS.Hash)
    requires !AS.Possible(y, m)
    ensures AS.Moved(y, m, hash) == y
  {
  }

  lemma SettleMoveKeepsAgreement(y: System, m: AS.Move, hash: AS.Hash)
    requires Ok(y, hash) && m.SettleSend? && Genuine(y, m.answer) && AS.Possible(y.side, m)
    ensures SidesAgree(AS.Moved(y.side, m, hash).arma, y.tables)
  {
    SettlingKeepsAgreement(y, m, hash);
    assert AS.Moved(y.side, m, hash) == AS.Settling(y.side, m);
  }

  lemma MoveKeepsAgreement(y: System, m: AS.Move, hash: AS.Hash)
    requires Ok(y, hash) && (m.SettleSend? ==> Genuine(y, m.answer))
    ensures SidesAgree(AS.Moved(y.side, m, hash).arma, y.tables)
  {
    if !AS.Possible(y.side, m) { ImpossibleMoveIs(y.side, m, hash); }
    else if m.SettleSend? { SettleMoveKeepsAgreement(y, m, hash); }
    else { OtherMoveKeepsAgreement(y, m, hash); }
  }

  /** A move appends to the sends or leaves them alone. */
  lemma MoveAppends(y: AS.Side, m: AS.Move, hash: AS.Hash)
    ensures y.sends <= AS.Moved(y, m, hash).sends
  {
  }

  lemma NewRequestsAreSends(y: System, y': System, nonce: string, signedAt: int)
    requires WireOk(y) && y.side.sends <= y'.side.sends && y'.forwarded == y.forwarded
    requires y'.requests == y.requests + NewRequests(y.side.sends, y'.side.sends, nonce, signedAt)
    ensures WireOk(y')
  {
  }

  lemma SideKeeps(y: System, y': System, hash: AS.Hash, nonce: string, signedAt: int)
    requires Ok(y, hash) && AS.Kept(y.side, y'.side, hash) && y.side.sends <= y'.side.sends
    requires SidesAgree(y'.side.arma, y.tables)
    requires y' == y.(side := y'.side,
                      requests := y.requests + NewRequests(y.side.sends, y'.side.sends, nonce, signedAt))
    ensures Ok(y', hash)
  {
    NewRequestsAreSends(y, y', nonce, signedAt);
    ProgressKeepsKnown(y.side.arma, y'.side.arma, y.tables, hash);
  }

  lemma MoveKeeps(y: System, e: Event, hash: AS.Hash)
    requires Ok(y, hash) && e.Arma? && Enabled(y, e)
    ensures Ok(Next(y, e, hash), hash)
  {
    AS.MoveKeeps(y.side, e.move, hash);
    MoveKeepsAgreement(y, e.move, hash);
    MoveAppends(y.side, e.move, hash);
    SideKeeps(y, Next(y, e, hash), hash, e.nonce, e.signedAt);
  }

  // ----- The processor's decisions keep it -----

  /** What was held stays held, since the processor never changes a row. */
  lemma ExtensionKeeps(arma: A.State, s: S.Tables, s': S.Tables, replies: set<P.Reply>,
                       receipts: set<RV.GatewayReceipt>)
    requires D.Extends(s, s') && WordsOk(s, replies, receipts) && SidesAgree(arma, s)
    ensures WordsOk(s', replies, receipts) && SidesAgree(arma, s')
  {
  }

  /** A request about a transfer as ARMA knows it. */
  predicate Own(arma: A.State, hash: AS.Hash, env: P.Envelope) {
    Known(arma, hash, env.transferId, env.idempotencyKey, env.payloadHash)
  }

  lemma ForwardedIsOwn(y: System, w: Wire, hash: AS.Hash)
    requires Ok(y, hash) && w in y.forwarded
    ensures Sendable(w.outbound) && Own(y.side.arma, hash, EnvelopeOf(w.outbound))
  {
  }

  /** An own request never contradicts what is stored. */
  lemma OwnRequestFits(y: System, env: P.Envelope, hash: AS.Hash)
    requires Ok(y, hash) && Own(y.side.arma, hash, env)
    ensures env.idempotencyKey in y.tables.idempotency ==>
              && y.tables.idempotency[env.idempotencyKey].transferId == env.transferId
              && y.tables.idempotency[env.idempotencyKey].payloadHash == env.payloadHash
    ensures env.transferId in y.tables.transfers ==> env.idempotencyKey in y.tables.idempotency
  {
  }

  /** Deciding an own request adds its own decision or nothing. */
  lemma OwnDecision(s: S.Tables, fp: S.FailPoints, nonce: string, env: P.Envelope, verdict: P.Verdict,
                    now: int, wallClock: int) returns (effect: D.Effect)
    requires D.FourTables(s)
    requires env.idempotencyKey in s.idempotency ==>
               && s.idempotency[env.idempotencyKey].transferId == env.transferId
               && s.idempotency[env.idempotencyKey].payloadHash == env.payloadHash
    ensures D.HasEffect(s, P.Decide(s, fp, nonce, env, verdict, now, wallClock).0, effect)
    ensures effect.NoDecision? || (effect.NewDecision? && effect.env == env)
  {
    effect := D.NoDecision;
    if env.idempotencyKey in s.idempotency {
      assert D.BindingHolds(s, env.idempotencyKey) && D.TransferHolds(s, env.transferId);
      OwnRepeat(s, fp, nonce, env, verdict, now, wallClock);
    } else if nonce !in s.nonces {
      match verdict {
        case Failure(refusal) => effect := D.RefuseEffect(s, fp, nonce, env, refusal, now);
        case Success(fields) => effect := D.AcceptEffect(s, fp, nonce, env, fields, now);
      }
    } else {
      NonceReplayed(s, fp, nonce, env, verdict, now, wallClock);
    }
  }

  lemma NonceReplayed(s: S.Tables, fp: S.FailPoints, nonce: string, env: P.Envelope, verdict: P.Verdict,
                      now: int, wallClock: int)
    requires nonce in s.nonces
    ensures var s' := P.Decide(s, fp, nonce, env, verdict, now, wallClock).0;
            D.HasEffect(s, s', D.NoDecision) && s'.nonces == s.nonces
  {
  }

  /** A request for a key decided about the same content is never set aside, and decides nothing. */
  lemma OwnRepeat(s: S.Tables, fp: S.FailPoints, nonce: string, env: P.Envelope, verdict: P.Verdict,
                  now: int, wallClock: int)
    requires D.BindingHolds(s, env.idempotencyKey) && D.TransferHolds(s, env.transferId)
    requires s.idempotency[env.idempotencyKey].transferId == env.transferId
    requires s.idempotency[env.idempotencyKey].payloadHash == env.payloadHash
    ensures var s' := P.Decide(s, fp, nonce, env, verdict, now, wallClock).0;
            && D.HasEffect(s, s', D.NoDecision)
            && (forall n :: n in s'.nonces ==> n in s.nonces || n == nonce)
  {
  }

  lemma OwnStepEffect(s: S.Tables, step: D.Step, env: P.Envelope) returns (effect: D.Effect)
    requires D.FourTables(s)
    requires step.request.body.Valid? ==> step.request.body.envelope == env
    requires env.idempotencyKey in s.idempotency ==>
               && s.idempotency[env.idempotencyKey].transferId == env.transferId
               && s.idempotency[env.idempotencyKey].payloadHash == env.payloadHash
    ensures D.HasEffect(s, D.Apply(s, step).0, effect)
    ensures effect.NoDecision? || (effect.NewDecision? && effect.env == env)
  {
    if step.disabled || !P.Screen(step.request, step.now).Proceed? {
      D.ScreenedEffect(s, step.fp, step.disabled, step.request, step.verdict, step.now, step.wallClock);
      effect := D.NoDecision;
    } else {
      D.ScreenPassesOn(s, step.fp, step.request, step.verdict, step.now, step.wallClock);
      effect := OwnDecision(s, step.fp, step.request.nonce.value, env, step.verdict, step.now, step.wallClock);
    }
  }

  lemma EffectKeepsKnown(arma: A.State, s: S.Tables, s': S.Tables, effect: D.Effect, hash: AS.Hash)
    requires D.HasEffect(s, s', effect) && !effect.SideRecord?
    requires effect.NewDecision? ==> Own(arma, hash, effect.env)
    requires BindingsKnown(arma, s, hash) && TransfersKnown(arma, s, hash)
    ensures BindingsKnown(arma, s', hash) && TransfersKnown(arma, s', hash)
  {
  }

  lemma NewReplyOk(s: S.Tables, step: D.Step)
    requires D.FourTables(s) && D.Accepts(D.Apply(s, step).1)
    ensures ReplyOk(D.Apply(s, step).0, D.Apply(s, step).1.reply)
  {
    var s' := D.Apply(s, step).0;
    D.AcceptanceIsDurable(s, step);
    D.ProcessKeeps(s, step.fp, step.disabled, step.request, step.verdict, step.now, step.wallClock);
    var id := step.request.body.envelope.transferId;
    assert D.TransferHolds(s', id) && D.ReceiptHolds(s', P.ReceiptIdFor(id));
    D.ReceiptIdsDiffer(id, s'.receipts[P.ReceiptIdFor(id)].transferId);
  }

  /** The tables moved on by an own decision, before anything is said of it. */
  lemma TablesKeep(y: System, tables: S.Tables, effect: D.Effect, hash: AS.Hash)
    requires Ok(y, hash) && D.HasEffect(y.tables, tables, effect) && !effect.SideRecord?
    requires effect.NewDecision? ==> Own(y.side.arma, hash, effect.env)
    ensures Ok(y.(tables := tables), hash)
  {
    D.EffectKeeps(y.tables, tables, effect);
    EffectKeepsKnown(y.side.arma, y.tables, tables, effect, hash);
    ExtensionKeeps(y.side.arma, y.tables, tables, y.replies, y.receipts);
  }

  lemma WordAdded(s: S.Tables, replies: set<P.Reply>, receipts: set<RV.GatewayReceipt>, reply: P.Reply)
    requires WordsOk(s, replies, receipts) && ReplyOk(s, reply)
    ensures WordsOk(s, replies + {reply}, receipts)
  {
  }

  lemma AnswerKeeps(y: System, result: (S.Tables, P.Outcome), effect: D.Effect, hash: AS.Hash)
    requires Ok(y, hash) && D.HasEffect(y.tables, result.0, effect) && !effect.SideRecord?
    requires effect.NewDecision? ==> Own(y.side.arma, hash, effect.env)
    requires D.Accepts(result.1) ==> ReplyOk(result.0, result.1.reply)
    ensures Ok(Answered(y, result), hash)
  {
    TablesKeep(y, result.0, effect, hash);
    var y1 := y.(tables := result.0);
    if D.Accepts(result.1) {
      WordAdded(result.0, y.replies, y.receipts, result.1.reply);
      assert Answered(y, result) == y1.(replies := y1.replies + {result.1.reply});
    } else {
      assert Answered(y, result) == y1;
    }
  }

  lemma StepKeeps(y: System, step: D.Step, env: P.Envelope, hash: AS.Hash)
    requires Ok(y, hash) && Own(y.side.arma, hash, env)
    requires step.request.body.Valid? ==> step.request.body.envelope == env
    ensures Ok(Answered(y, D.Apply(y.tables, step)), hash)
  {
    OwnRequestFits(y, env, hash);
    var effect := OwnStepEffect(y.tables, step, env);
    if D.Accepts(D.Apply(y.tables, step).1) { NewReplyOk(y.tables, step); }
    AnswerKeeps(y, D.Apply(y.tables, step), effect, hash);
  }

  lemma DecideKeeps(y: System, e: Event, hash: AS.Hash)
    requires Ok(y, hash) && e.Decide? && Enabled(y, e)
    ensures Ok(Next(y, e, hash), hash)
  {
    ForwardedIsOwn(y, e.wire, hash);
    StepKeeps(y, StepOf(e), EnvelopeOf(e.wire.outbound), hash);
  }

  // ----- The gateway keeps it -----

  lemma ForwardKeeps(y: System, y': System, w: Wire, hash: AS.Hash)
    requires Ok(y, hash) && w in y.requests
    requires y' == y.(gatewaySeen := y'.gatewaySeen, forwarded := y.forwarded + {w})
    ensures Ok(y', hash)
  {
  }

  lemma ReceiptAdded(s: S.Tables, replies: set<P.Reply>, receipts: set<RV.GatewayReceipt>, receipt: RV.GatewayReceipt)
    requires WordsOk(s, replies, receipts) && ReceiptOk(s, receipt)
    ensures WordsOk(s, replies, receipts + {receipt})
  {
  }

  lemma ReceiptKeeps(y: System, y': System, receipt: RV.GatewayReceipt, hash: AS.Hash)
    requires Ok(y, hash) && ReceiptOk(y.tables, receipt) && y' == y.(receipts := y.receipts + {receipt})
    ensures Ok(y', hash)
  {
    ReceiptAdded(y.tables, y.replies, y.receipts, receipt);
  }

  /** The gateway only signs what the processor has told it, about the transfer it forwarded. */
  lemma SignedIsHeld(s: S.Tables, env: P.Envelope, r: P.Reply)
    requires ReplyOk(s, r) && G.Respond(env, G.Answered(true, Some(r))).Signed?
    ensures ReceiptOk(s, G.Respond(env, G.Answered(true, Some(r))).receipt)
  {
  }

  lemma GatewayKeeps(y: System, e: Event, hash: AS.Hash)
    requires Ok(y, hash) && (e.Forward? || e.SignReceipt?) && Enabled(y, e)
    ensures Ok(Next(y, e, hash), hash)
  {
    var y' := Next(y, e, hash);
    if y' != y {
      match e {
        case Forward(w, _, _) => ForwardKeeps(y, y', w, hash);
        case SignReceipt(w, r) =>
          SignedIsHeld(y.tables, EnvelopeOf(w.outbound), r);
          ReceiptKeeps(y, y', G.Respond(EnvelopeOf(w.outbound), G.Answered(true, Some(r))).receipt, hash);
      }
    }
  }

  /** Every event keeps all of it. */
  lemma NextKeeps(y: System, e: Event, hash: AS.Hash)
    requires Ok(y, hash)
    ensures Ok(Next(y, e, hash), hash)
  {
    if Enabled(y, e) {
      match e {
        case Arma(_, _, _) => MoveKeeps(y, e, hash);
        case Decide(_, _, _, _, _, _, _, _) => DecideKeeps(y, e, hash);
        case _ => GatewayKeeps(y, e, hash);
      }
    }
  }

  lemma {:induction false} RunKeeps(y: System, events: seq<Event>, hash: AS.Hash)
    requires Ok(y, hash)
    ensures Ok(Run(y, events, hash), hash)
    decreases |events|
  {
    if events != [] {
      NextKeeps(y, events[0], hash);
      RunKeeps(Next(y, events[0], hash), events[1..], hash);
    }
  }

  // ----- The results -----

  ghost predicate Reachable(y: System, hash: AS.Hash) {
    exists directory, events :: y == Run(Initial(directory), events, hash)
  }

  lemma ReachableIsOk(y: System, hash: AS.Hash)
    requires Reachable(y, hash)
    ensures Ok(y, hash)
  {
    var directory, events :| y == Run(Initial(directory), events, hash);
    RunKeeps(Initial(directory), events, hash);
  }

  /**
   End-to-end agreement. Whatever the network does, a transfer ARMA holds as accepted is held
   as accepted by the processor, with the same payload hash and under the same receipt.
   */
  lemma AcceptedOnBothSides(y: System, hash: AS.Hash, id: string)
    requires Reachable(y, hash) && id in y.side.arma.transfers && y.side.arma.transfers[id].status.Accepted?
    ensures var r := y.side.arma.transfers[id];
            && r.receiptId.Some? && r.payloadHash.Some?
            && Held(y.tables, id, r.payloadHash.value, r.receiptId.value)
  {
    ReachableIsOk(y, hash);
    assert Agrees(y.side.arma, y.tables, id);
  }

  /** The stored answer to a decided key: its receipt as it stands, or the code it was refused with. */
  predicate Repeats(s: S.Tables, env: P.Envelope, reply: P.Reply)
    requires env.idempotencyKey in s.idempotency
  {
    var b := s.idempotency[env.idempotencyKey];
    if b.outcome.Accepted? then
      b.receiptId.Some? && b.receiptId.value in s.receipts && reply == P.WireShape(s.receipts[b.receiptId.value])
      && reply.transferId == env.transferId && reply.payloadHash == env.payloadHash
    else reply == P.Denial(b.errorCode, Some(env.transferId), Some(env.idempotencyKey), false, None)
  }

  lemma DecidedIsReplayed(s: S.Tables, fp: S.FailPoints, nonce: string, env: P.Envelope, verdict: P.Verdict,
                          now: int, wallClock: int)
    requires D.FourTables(s) && nonce !in s.nonces && env.idempotencyKey in s.idempotency
    requires s.idempotency[env.idempotencyKey].transferId == env.transferId
    requires s.idempotency[env.idempotencyKey].payloadHash == env.payloadHash
    ensures var (s', out) := P.Decide(s, fp, nonce, env, verdict, now, wallClock);
            && s'.idempotency == s.idempotency && s'.transfers == s.transfers && s'.receipts == s.receipts
            && (out.Responded? ==> out.kind.DuplicateKind? && Repeats(s, env, out.reply))
  {
    assert D.BindingHolds(s, env.idempotencyKey) && D.TransferHolds(s, env.transferId);
    if s.idempotency[env.idempotencyKey].outcome.Accepted? {
      var receiptId := P.ReceiptIdFor(env.transferId);
      assert D.ReceiptHolds(s, receiptId);
      D.ReceiptIdsDiffer(env.transferId, s.receipts[receiptId].transferId);
    }
  }

  /**
   ARMA's own re-sends collapse. However often and late they reach the processor, a request for a
   key already decided stores no row and is answered with the stored receipt or error code; and a
   key not yet decided is about a transfer not yet stored. Nothing of ARMA's is taken for a conflict.
   */
  lemma ResendsCollapse(y: System, hash: AS.Hash, w: Wire, fp: S.FailPoints, nonce: string, verdict: P.Verdict,
                        now: int, wallClock: int)
    requires Reachable(y, hash) && w in y.forwarded && nonce !in y.tables.nonces
    ensures Sendable(w.outbound)
    ensures var env := EnvelopeOf(w.outbound);
            var s := y.tables;
            var (s', out) := P.Decide(s, fp, nonce, env, verdict, now, wallClock);
            && (env.idempotencyKey in s.idempotency ==>
                  && s'.idempotency == s.idempotency && s'.transfers == s.transfers && s'.receipts == s.receipts
                  && (out.Responded? ==> out.kind.DuplicateKind? && Repeats(s, env, out.reply)))
            && (env.idempotencyKey !in s.idempotency ==> env.transferId !in s.transfers)
  {
    ReachableIsOk(y, hash);
    ForwardedIsOwn(y, w, hash);
    var env := EnvelopeOf(w.outbound);
    OwnRequestFits(y, env, hash);
    if env.idempotencyKey in y.tables.idempotency {
      DecidedIsReplayed(y.tables, fp, nonce, env, verdict, now, wallClock);
    }
  }

  /** Every stored transfer is one of ARMA's (none was set aside), and none has two receipts. */
  lemma OneReceiptPerTransfer(y: System, hash: AS.Hash)
    requires Reachable(y, hash)
    ensures forall id :: id in y.tables.transfers ==> id in y.side.arma.transfers
    ensures forall r, q :: r in y.tables.receipts && q in y.tables.receipts ==>
              (y.tables.receipts[r].transferId == y.tables.receipts[q].transferId ==> r == q)
  {
    ReachableIsOk(y, hash);
    forall r, q | r in y.tables.receipts && q in y.tables.receipts
                  && y.tables.receipts[r].transferId == y.tables.receipts[q].transferId
      ensures r == q
    {
      assert D.ReceiptHolds(y.tables, r) && D.ReceiptHolds(y.tables, q);
    }
  }
}
