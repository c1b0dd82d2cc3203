/**
 Which requests the processor accepts, told by the request, the directory and the tables: the other
 half of what it decides. Every answer to a first delivery has its reason, and every stored decision
 goes back to a request it is right for.
 */
module LawShieldAdmissions {
  import opened Wrappers
  import opened Nonces
  import opened Json
  import Redaction
  import RA = RedactionAgreement
  import RC = RedactionCodes
  import opened LawShieldStore
  import opened LawShieldProcessor
  import D = LawShieldDecisions

  // ----- Who may disclose what to whom -----

  /** The authorizer is listed, active, and of the sending organisation. */
  predicate AuthorizerStands(d: Directory, s: Subject) {
    && s.authorizedBy in d.authorizers && d.authorizers[s.authorizedBy].active
    && d.authorizers[s.authorizedBy].armaOrgId == s.armaOrgId
  }

  /** An active mapping leads from the sending organisation to the receiving one. */
  predicate OrganisationStands(d: Directory, s: Subject) {
    && s.armaOrgId in d.orgMappings && d.orgMappings[s.armaOrgId].active
    && d.orgMappings[s.armaOrgId].lawShieldOrgId == s.lawShieldOrgId
  }

  predicate AboutIncident(s: Subject) {
    s.incidentId.Some? && s.incidentId.value != ""
  }

  predicate NamesCase(s: Subject) {
    s.lawShieldCaseId.Some? && s.lawShieldCaseId.value != ""
  }

  /** With an incident, an active case mapping leads to the same organisation, and to the case if one is named. */
  predicate CaseStands(d: Directory, s: Subject) {
    AboutIncident(s) ==>
      && (s.armaOrgId, s.incidentId.value) in d.caseMappings
      && var m := d.caseMappings[(s.armaOrgId, s.incidentId.value)];
         && m.active && m.lawShieldOrgId == s.lawShieldOrgId
         && (NamesCase(s) ==> m.lawShieldCaseId == s.lawShieldCaseId.value)
  }

  predicate PartiesStand(d: Directory, s: Subject) {
    AuthorizerStands(d, s) && OrganisationStands(d, s) && CaseStands(d, s)
  }

  /** A known record type, and no key at any depth that is unlisted or always redacted. */
  predicate PayloadClean(env: Envelope) {
    && Redaction.PolicyFor(env.subject.recordType).Some? && !env.payload.Null?
    && RA.CleanFields(Redaction.PolicyFor(env.subject.recordType).value, Entries(env.payload))
  }

  predicate MayDisclose(d: Directory, env: Envelope) {
    PartiesStand(d, env.subject) && PayloadClean(env)
  }

  lemma VerdictIff(d: Directory, env: Envelope)
    ensures BusinessVerdict(d, env).Success? <==> MayDisclose(d, env)
  {
    var policy := Redaction.PolicyFor(env.subject.recordType);
    if policy.Some? { RA.PassesIffClean(policy.value, Entries(env.payload), ""); }
  }

  // ----- Acceptance -----

  /** The request is well formed, about the transfer its header names, whole, and in time. */
  predicate Presentable(r: Request, now: int) {
    && r.body.Valid? && r.nonce.Some? && WellFormedNonce(r.nonce.value)
    && r.contentHash == Some(r.bodyHash) && IsSha256Hex(r.bodyHash)
    && r.schemaVersion == Some("arma-lawshield.v1")
    && (r.transferId.Some? && r.transferId.value != "" ==> r.transferId.value == r.body.envelope.transferId)
    && r.body.envelope.sentAt - 600_000 <= now <= r.body.envelope.sentAt + 600_000
  }

  lemma ScreenIff(r: Request, now: int)
    ensures Screen(r, now).Proceed? <==> Presentable(r, now)
    ensures Presentable(r, now) ==> Screen(r, now) == Proceed(r.nonce.value, r.body.envelope)
  {
  }

  /** The first delivery of a key, presentable and under a nonce not seen before. */
  predicate FirstDelivery(s: Tables, r: Request, now: int) {
    Presentable(r, now) && r.nonce.value !in s.nonces && r.body.envelope.idempotencyKey !in s.idempotency
  }

  /** No row under the transfer's id says anything else. */
  predicate RoomFor(s: Tables, env: Envelope, status: Status) {
    env.transferId in s.transfers ==>
      s.transfers[env.transferId].payloadHash == env.payloadHash && s.transfers[env.transferId].status == status
  }

  predicate WritesSucceed(fp: FailPoints) {
    !fp.persistTransfer && !fp.persistReceipt && !fp.auditWrite
  }

  /** A step whose business checks consult this directory. */
  predicate Consults(d: Directory, step: D.Step) {
    step.verdict == VerdictFor(d, step.request)
  }

  lemma FirstDeliveryDecides(s: Tables, step: D.Step)
    requires !step.disabled && FirstDelivery(s, step.request, step.now)
    ensures D.Apply(s, step)
            == match step.verdict
               case Success(fields) =>
                 Accept(s, step.fp, step.request.nonce.value, step.request.body.envelope, fields, step.now)
               case Failure(refusal) =>
                 Refuse(s, step.fp, step.request.nonce.value, step.request.body.envelope, refusal, step.now)
  {
    ScreenIff(step.request, step.now);
    D.ScreenPassesOn(s, step.fp, step.request, step.verdict, step.now, step.wallClock);
  }

  lemma AcceptsIff(s: Tables, fp: FailPoints, nonce: string, env: Envelope, fields: seq<string>, now: int)
    ensures var out := Accept(s, fp, nonce, env, fields, now).1;
            && out.Responded? && (out.kind.AcceptedKind? <==> WritesSucceed(fp) && RoomFor(s, env, Accepted))
            && (!out.kind.AcceptedKind? ==> out.kind.ErrorKind?)
  {
  }

  lemma RefusesOrFails(s: Tables, fp: FailPoints, nonce: string, env: Envelope, refusal: Redaction.Refusal, now: int)
    ensures var out := Refuse(s, fp, nonce, env, refusal, now).1; out.Responded? && !out.kind.AcceptedKind?
  {
  }

  lemma OthersAreNotAccepted(s: Tables, step: D.Step)
    requires step.disabled || !FirstDelivery(s, step.request, step.now)
    ensures var out := D.Apply(s, step).1; out.Responded? ==> !out.kind.AcceptedKind?
  {
    ScreenIff(step.request, step.now);
  }

  /**
   The exact condition of acceptance: the first delivery of its key, presentable and with a fresh
   nonce, from parties that stand, with a clean payload, no contrary row and no failing write.
   */
  lemma AcceptedIff(s: Tables, step: D.Step, d: Directory)
    requires Consults(d, step)
    ensures var out := D.Apply(s, step).1;
            out.Responded? && out.kind.AcceptedKind?
            <==> && !step.disabled && FirstDelivery(s, step.request, step.now)
                 && MayDisclose(d, step.request.body.envelope)
                 && RoomFor(s, step.request.body.envelope, Accepted) && WritesSucceed(step.fp)
  {
    if step.disabled || !FirstDelivery(s, step.request, step.now) {
      OthersAreNotAccepted(s, step);
    } else {
      var env := step.request.body.envelope;
      FirstDeliveryDecides(s, step);
      VerdictIff(d, env);
      match step.verdict {
        case Success(fields) => AcceptsIff(s, step.fp, step.request.nonce.value, env, fields, step.now);
        case Failure(refusal) => RefusesOrFails(s, step.fp, step.request.nonce.value, env, refusal, step.now);
      }
    }
  }

  // ----- Refusal -----

  /** Why the parties do not stand: the first objection, in the order the checks are made. */
  predicate PartyCode(d: Directory, s: Subject, code: string) {
    && (code == "AUTHORIZER_UNKNOWN" <==> s.authorizedBy !in d.authorizers)
    && (code == "AUTHORIZER_INACTIVE" <==> s.authorizedBy in d.authorizers && !d.authorizers[s.authorizedBy].active)
    && (code == "AUTHORIZER_ORG_MISMATCH" <==>
          && s.authorizedBy in d.authorizers && d.authorizers[s.authorizedBy].active
          && d.authorizers[s.authorizedBy].armaOrgId != s.armaOrgId)
    && (code == "ORG_MAPPING_MISSING" <==> AuthorizerStands(d, s) && s.armaOrgId !in d.orgMappings)
    && (code == "ORG_MAPPING_INACTIVE" <==>
          AuthorizerStands(d, s) && s.armaOrgId in d.orgMappings && !d.orgMappings[s.armaOrgId].active)
    && (code == "ORG_MAPPING_MISMATCH" <==>
          && AuthorizerStands(d, s) && s.armaOrgId in d.orgMappings && d.orgMappings[s.armaOrgId].active
          && d.orgMappings[s.armaOrgId].lawShieldOrgId != s.lawShieldOrgId)
    && (AuthorizerStands(d, s) && OrganisationStands(d, s) && AboutIncident(s) ==>
          CaseCode(d, s, (s.armaOrgId, s.incidentId.value), code))
  }

  predicate CaseCode(d: Directory, s: Subject, key: (string, string), code: string)
    requires AboutIncident(s)
  {
    && (code == "CASE_MAPPING_MISSING" <==> key !in d.caseMappings)
    && (code == "CASE_MAPPING_INACTIVE" <==> key in d.caseMappings && !d.caseMappings[key].active)
    && (code == "CASE_MAPPING_MISMATCH" <==> key in d.caseMappings && d.caseMappings[key].active && !CaseStands(d, s))
  }

  /** Why a payload is not clean. */
  predicate PayloadCode(env: Envelope, code: string) {
    var policy := Redaction.PolicyFor(env.subject.recordType);
    && (code == "RECORD_TYPE_NOT_ALLOWED" <==> policy.None?)
    && (code == "TYPE_ERROR" <==> policy.Some? && env.payload.Null?)
    && (policy.Some? && !env.payload.Null? ==>
          && code in {"ALWAYS_REDACTED_FIELD_PRESENT", "MINIMUM_NECESSARY_VIOLATION"}
          && (RC.Reaches(policy.value, Entries(env.payload)) ==> code == "ALWAYS_REDACTED_FIELD_PRESENT")
          && (RC.Plain(Entries(env.payload)) && !RC.Reaches(policy.value, Entries(env.payload)) ==>
                code == "MINIMUM_NECESSARY_VIOLATION"))
  }

  predicate PayloadCodes(code: string) {
    code == "ALWAYS_REDACTED_FIELD_PRESENT" || code == "MINIMUM_NECESSARY_VIOLATION"
  }

  lemma PartyRefusal(d: Directory, env: Envelope)
    requires !PartiesStand(d, env.subject)
    ensures BusinessVerdict(d, env).Failure?
    ensures var code := BusinessVerdict(d, env).error.code;
            PartyCode(d, env.subject, code) && !PayloadCodes(code) && code != "IDEMPOTENCY_KEY_CONFLICT"
  {
  }

  lemma PayloadRefusal(d: Directory, env: Envelope)
    requires PartiesStand(d, env.subject) && !PayloadClean(env)
    ensures BusinessVerdict(d, env) == Redaction.Enforced(Redaction.PolicyFor(env.subject.recordType), env.payload)
    ensures BusinessVerdict(d, env).Failure?
    ensures var code := BusinessVerdict(d, env).error.code;
            && PartyCode(d, env.subject, code) && PayloadCode(env, code) && code != "IDEMPOTENCY_KEY_CONFLICT"
            && (PayloadCodes(code) <==> !env.payload.Null? && Redaction.PolicyFor(env.subject.recordType).Some?)
  {
    var policy := Redaction.PolicyFor(env.subject.recordType);
    if policy.Some? && !env.payload.Null? { RC.UncleanCode(policy.value, env.payload); }
  }

  /** The parties stand, and a payload of a known type holds what may not be disclosed. */
  predicate OnlyUnclean(d: Directory, env: Envelope) {
    && PartiesStand(d, env.subject) && !env.payload.Null?
    && Redaction.PolicyFor(env.subject.recordType).Some? && !PayloadClean(env)
  }

  predicate CodeFits(d: Directory, env: Envelope, code: string) {
    PartyCode(d, env.subject, code) && (PartiesStand(d, env.subject) ==> PayloadCode(env, code))
  }

  lemma RefusalCode(d: Directory, env: Envelope)
    requires !MayDisclose(d, env)
    ensures BusinessVerdict(d, env).Failure?
    ensures var code := BusinessVerdict(d, env).error.code;
            && CodeFits(d, env, code) && code != "IDEMPOTENCY_KEY_CONFLICT"
            && (PayloadCodes(code) <==> OnlyUnclean(d, env))
  {
    if PartiesStand(d, env.subject) { PayloadRefusal(d, env); } else { PartyRefusal(d, env); }
  }

  lemma RefuseStores(s: Tables, fp: FailPoints, nonce: string, env: Envelope, refusal: Redaction.Refusal, now: int)
    requires WritesSucceed(fp) && env.transferId !in s.transfers
    ensures var (s', out) := Refuse(s, fp, nonce, env, refusal, now);
            var quarantined := PayloadCodes(refusal.code) || refusal.code == "IDEMPOTENCY_KEY_CONFLICT";
            && out.Responded? && out.reply.Denial? && out.reply.error == Some(refusal.code)
            && out.reply.aboutTransfer == Some(env.transferId) && out.reply.aboutKey == Some(env.idempotencyKey)
            && out.kind == (if quarantined then QuarantinedKind else RejectedKind)
            && env.transferId in s'.transfers
            && s'.transfers[env.transferId].status == (if quarantined then Quarantined else Rejected)
            && s'.transfers[env.transferId].lastErrorCode == Some(refusal.code)
  {
  }

  /** What a stored refusal leaves besides its row: the binding and one audit event, and no receipt. */
  predicate LeavesRefusal(s: Tables, s': Tables, env: Envelope, status: Status, code: string) {
    var word := if status.Quarantined? then "QUARANTINED" else "REJECTED";
    && env.idempotencyKey in s'.idempotency
    && s'.idempotency[env.idempotencyKey] == Binding(env.transferId, env.payloadHash, status, None, None, Some(code))
    && s'.receipts == s.receipts && |s'.audit| == |s.audit| + 1
    && s'.audit[|s.audit|].entry
       == AuditEntry(Some(env.transferId), Some(env.idempotencyKey), "TRANSFER_" + word, word, code)
  }

  lemma RefuseLeaves(s: Tables, fp: FailPoints, nonce: string, env: Envelope, refusal: Redaction.Refusal, now: int)
    requires WritesSucceed(fp) && env.transferId !in s.transfers && env.idempotencyKey !in s.idempotency
    ensures LeavesRefusal(s, Refuse(s, fp, nonce, env, refusal, now).0, env, StatusOfRefusal(refusal.code), refusal.code)
  {
  }

  /**
   The other first deliveries, where nothing fails: each is refused with the first objection there
   is. It is quarantined when the parties stand and a payload of a known type is not clean, and
   rejected otherwise; the stored row says the same.
   */
  lemma RefusedSays(s: Tables, step: D.Step, d: Directory)
    requires Consults(d, step) && !step.disabled && FirstDelivery(s, step.request, step.now)
    requires !MayDisclose(d, step.request.body.envelope) && WritesSucceed(step.fp)
    requires step.request.body.envelope.transferId !in s.transfers
    ensures var (s', out) := D.Apply(s, step);
            var env := step.request.body.envelope;
            && out.Responded? && out.reply.Denial? && out.reply.error.Some? && env.transferId in s'.transfers
            && CodeFits(d, env, out.reply.error.value)
            && s'.transfers[env.transferId].lastErrorCode == out.reply.error
            && LeavesRefusal(s, s', env, s'.transfers[env.transferId].status, out.reply.error.value)
            && (if OnlyUnclean(d, env)
                then out.kind.QuarantinedKind? && s'.transfers[env.transferId].status.Quarantined?
                else out.kind.RejectedKind? && s'.transfers[env.transferId].status.Rejected?)
  {
    var env := step.request.body.envelope;
    FirstDeliveryDecides(s, step);
    RefusalCode(d, env);
    RefuseStores(s, step.fp, step.request.nonce.value, env, step.verdict.error, step.now);
    RefuseLeaves(s, step.fp, step.request.nonce.value, env, step.verdict.error, step.now);
  }

  // ----- Failing writes -----

  /** What is left of a request whose writes fail: one audit event that says so, if that can be written. */
  predicate LeavesFailure(s: Tables, s': Tables, env: Envelope, fp: FailPoints, code: string) {
    && D.SameTables(s, s')
    && (if fp.auditWrite then s'.audit == s.audit
        else
          && |s'.audit| == |s.audit| + 1
          && s'.audit[|s.audit|].entry
             == AuditEntry(Some(env.transferId), Some(env.idempotencyKey), "PROCESSOR_TRANSACTION_FAILED", "FAILED", code))
  }

  lemma AcceptFails(s: Tables, fp: FailPoints, nonce: string, env: Envelope, fields: seq<string>, now: int)
    ensures var (s', out) := Accept(s, fp, nonce, env, fields, now);
            && out.Responded?
            && (out.kind.ErrorKind? ==>
                  && out.reply.Denial? && out.reply.error.Some? && LeavesFailure(s, s', env, fp, out.reply.error.value))
  {
  }

  lemma RefuseFails(s: Tables, fp: FailPoints, nonce: string, env: Envelope, refusal: Redaction.Refusal, now: int)
    ensures var (s', out) := Refuse(s, fp, nonce, env, refusal, now);
            && out.Responded?
            && (out.kind.ErrorKind? ==>
                  && out.reply.Denial? && out.reply.error.Some? && LeavesFailure(s, s', env, fp, out.reply.error.value))
  {
  }

  /** A first delivery that ends in an error leaves the tables as they were, and says so in the audit. */
  lemma FailuresAreAudited(s: Tables, step: D.Step)
    requires !step.disabled && FirstDelivery(s, step.request, step.now)
    ensures var (s', out) := D.Apply(s, step);
            && out.Responded?
            && (out.kind.ErrorKind? ==>
                  && out.reply.Denial? && out.reply.error.Some?
                  && LeavesFailure(s, s', step.request.body.envelope, step.fp, out.reply.error.value))
  {
    FirstDeliveryDecides(s, step);
    var nonce, env := step.request.nonce.value, step.request.body.envelope;
    match step.verdict {
      case Success(fields) => AcceptFails(s, step.fp, nonce, env, fields, step.now);
      case Failure(refusal) => RefuseFails(s, step.fp, nonce, env, refusal, step.now);
    }
  }

  // ----- Runs -----

  /** This step asked for the transfer under this key and with this content, as its row says. */
  predicate AskedFor(step: D.Step, row: Transfer) {
    && step.request.body.Valid?
    && var env := step.request.body.envelope;
       && env.transferId == row.transferId && env.idempotencyKey == row.idempotencyKey
       && env.payloadHash == row.payloadHash && env.subject == row.subject
  }

  /** What acceptance leaves: the row, the binding, the receipt and one audit event, all of this request. */
  lemma AcceptedStores(s: Tables, step: D.Step)
    requires D.FourTables(s) && D.Apply(s, step).1.Responded? && D.Apply(s, step).1.kind.AcceptedKind?
    requires step.request.body.Valid? && step.request.body.envelope.transferId !in s.transfers
    ensures var (s', env) := (D.Apply(s, step).0, step.request.body.envelope);
            var receiptId := "RCP-" + env.transferId;
            && env.transferId in s'.transfers && env.idempotencyKey in s'.idempotency && receiptId in s'.receipts
            && var (row, binding, receipt) :=
                 (s'.transfers[env.transferId], s'.idempotency[env.idempotencyKey], s'.receipts[receiptId]);
               && AskedFor(step, row) && row.status.Accepted? && row.receiptId == Some(receiptId)
               && row.acceptedAt == Some(step.now) && row.rejectedAt.None? && row.lastErrorCode.None?
               && binding == Binding(env.transferId, env.payloadHash, Accepted, Some(receiptId), Some(step.now), None)
               && receipt
                  == Receipt(receiptId, env.transferId, env.idempotencyKey, env.payloadHash, step.now, "PERSISTED")
               && |s'.audit| == |s.audit| + 1
               && s'.audit[|s.audit|].entry
                  == AuditEntry(Some(env.transferId), Some(env.idempotencyKey), "TRANSFER_ACCEPTED", "ACCEPTED",
                                "ACCEPTED")
  {
    if step.disabled || !FirstDelivery(s, step.request, step.now) {
      OthersAreNotAccepted(s, step);
    } else {
      FirstDeliveryDecides(s, step);
      var env := step.request.body.envelope;
      if step.verdict.Success? { NoReceiptYet(s, env.transferId); }
      else { RefusesOrFails(s, step.fp, step.request.nonce.value, env, step.verdict.error, step.now); }
    }
  }

  lemma NoReceiptYet(s: Tables, id: string)
    requires D.FourTables(s) && id !in s.transfers
    ensures ReceiptIdFor(id) !in s.receipts
  {
    if ReceiptIdFor(id) in s.receipts {
      assert D.ReceiptHolds(s, ReceiptIdFor(id));
      D.ReceiptIdsDiffer(id, s.receipts[ReceiptIdFor(id)].transferId);
    }
  }

  /** An accepted row was asked for where it may be disclosed, a rejected one where it may not. */
  predicate Justified(d: Directory, steps: seq<D.Step>, row: Transfer) {
    && (row.status.Accepted? ==>
          exists i :: 0 <= i < |steps| && AskedFor(steps[i], row) && MayDisclose(d, steps[i].request.body.envelope))
    && (row.status.Rejected? ==>
          exists i :: 0 <= i < |steps| && AskedFor(steps[i], row) && !MayDisclose(d, steps[i].request.body.envelope))
  }

  ghost predicate AllJustified(d: Directory, steps: seq<D.Step>, s: Tables) {
    forall id :: id in s.transfers ==> Justified(d, steps, s.transfers[id])
  }

  lemma AcceptedRowIsNew(s: Tables, fp: FailPoints, nonce: string, env: Envelope, fields: seq<string>, now: int,
                         id: string)
    requires id !in s.transfers && id in Accept(s, fp, nonce, env, fields, now).0.transfers
    ensures var row := Accept(s, fp, nonce, env, fields, now).0.transfers[id];
            && row.status.Accepted? && row.transferId == env.transferId && row.idempotencyKey == env.idempotencyKey
            && row.payloadHash == env.payloadHash && row.subject == env.subject
  {
  }

  lemma RefusedRowIsNew(s: Tables, fp: FailPoints, nonce: string, env: Envelope, refusal: Redaction.Refusal, now: int,
                        id: string)
    requires id !in s.transfers && id in Refuse(s, fp, nonce, env, refusal, now).0.transfers
    ensures var row := Refuse(s, fp, nonce, env, refusal, now).0.transfers[id];
            && !row.status.Accepted? && row.transferId == env.transferId && row.idempotencyKey == env.idempotencyKey
            && row.payloadHash == env.payloadHash && row.subject == env.subject
  {
  }

  lemma FirstRow(s: Tables, step: D.Step, d: Directory, id: string)
    requires Consults(d, step) && id !in s.transfers && id in D.Apply(s, step).0.transfers
    requires !step.disabled && FirstDelivery(s, step.request, step.now)
    ensures var row := D.Apply(s, step).0.transfers[id];
            AskedFor(step, row) && (row.status.Accepted? <==> MayDisclose(d, step.request.body.envelope))
  {
    var env := step.request.body.envelope;
    FirstDeliveryDecides(s, step);
    VerdictIff(d, env);
    match step.verdict {
      case Success(fields) => AcceptedRowIsNew(s, step.fp, step.request.nonce.value, env, fields, step.now, id);
      case Failure(refusal) => RefusedRowIsNew(s, step.fp, step.request.nonce.value, env, refusal, step.now, id);
    }
  }

  /** Any other new row is a quarantined one. */
  lemma OtherRow(s: Tables, step: D.Step, id: string)
    requires id !in s.transfers && id in D.Apply(s, step).0.transfers
    requires step.disabled || !FirstDelivery(s, step.request, step.now)
    ensures D.Apply(s, step).0.transfers[id].status.Quarantined?
  {
    ScreenIff(step.request, step.now);
    if step.disabled || !Presentable(step.request, step.now) {
      D.ScreenedIsSame(s, step);
    } else if step.request.nonce.value in s.nonces {
      D.ReplayIsSame(s, step);
    } else {
      var nonce, env := step.request.nonce.value, step.request.body.envelope;
      D.ScreenPassesOn(s, step.fp, step.request, step.verdict, step.now, step.wallClock);
      var e := D.KnownKeyEffect(s, step.fp, nonce, env, step.verdict, step.now, step.wallClock);
    }
  }

  lemma NewRow(s: Tables, step: D.Step, d: Directory, id: string)
    requires Consults(d, step) && id !in s.transfers && id in D.Apply(s, step).0.transfers
    ensures Justified(d, [step], D.Apply(s, step).0.transfers[id])
  {
    if step.disabled || !FirstDelivery(s, step.request, step.now) {
      OtherRow(s, step, id);
    } else {
      FirstRow(s, step, d, id);
      assert [step][0] == step;
    }
  }

  lemma JustifiedAmongMore(d: Directory, a: seq<D.Step>, b: seq<D.Step>, row: Transfer)
    requires Justified(d, a, row) || Justified(d, b, row)
    ensures Justified(d, a + b, row)
  {
    assert forall i :: 0 <= i < |a| ==> (a + b)[i] == a[i];
    assert forall i :: 0 <= i < |b| ==> (a + b)[|a| + i] == b[i];
  }

  lemma StepJustifies(s: Tables, step: D.Step, d: Directory, earlier: seq<D.Step>)
    requires D.FourTables(s) && Consults(d, step) && AllJustified(d, earlier, s)
    ensures AllJustified(d, earlier + [step], D.Apply(s, step).0)
  {
    D.ProcessKeeps(s, step.fp, step.disabled, step.request, step.verdict, step.now, step.wallClock);
    var s' := D.Apply(s, step).0;
    forall id | id in s'.transfers
      ensures Justified(d, earlier + [step], s'.transfers[id])
    {
      if id !in s.transfers { NewRow(s, step, d, id); }
      JustifiedAmongMore(d, earlier, [step], s'.transfers[id]);
    }
  }

  lemma {:induction false} RunJustifies(s: Tables, steps: seq<D.Step>, d: Directory, earlier: seq<D.Step>,
                                        all: seq<D.Step>)
    requires D.FourTables(s) && AllJustified(d, earlier, s) && all == earlier + steps
    requires forall i :: 0 <= i < |steps| ==> Consults(d, steps[i])
    ensures AllJustified(d, all, D.After(s, steps))
    decreases |steps|
  {
    if steps == [] {
      assert all == earlier;
    } else {
      var step := steps[0];
      D.ProcessKeeps(s, step.fp, step.disabled, step.request, step.verdict, step.now, step.wallClock);
      StepJustifies(s, step, d, earlier);
      RunJustifies(D.Apply(s, step).0, steps[1..], d, earlier + [step], all);
    }
  }

  lemma NothingToJustify(d: Directory)
    ensures D.FourTables(EMPTY_TABLES) && AllJustified(d, [], EMPTY_TABLES)
  {
  }

  /**
   In every run under one directory, each accepted row was asked for by an envelope whose parties
   stand and whose payload is clean, and each rejected row by one for which that is not so.
   */
  lemma StoredRowsAreJustified(start: Tables, steps: seq<D.Step>, d: Directory)
    requires start == EMPTY_TABLES && forall i :: 0 <= i < |steps| ==> Consults(d, steps[i])
    ensures AllJustified(d, steps, D.After(start, steps))
  {
    NothingToJustify(d);
    RunJustifies(start, steps, d, [], steps);
  }

  // ----- Spent nonces -----

  /** The nonce was used, and its window has not passed at this time. */
  predicate SpentAt(s: Tables, nonce: string, now: int) {
    nonce in s.nonces && now <= s.nonces[nonce].seenAt + s.nonces[nonce].windowMs
  }

  /** What becomes of the nonces: nothing, or this one joins those still in their windows. */
  predicate NoncesAfter(before: map<string, NonceRecord>, after: map<string, NonceRecord>, nonce: string, id: string,
                        now: int, wallClock: int) {
    || after == before
    || (&& nonce !in before
        && (after == WithNonce(before, nonce, id, now) || after == WithNonce(before, nonce, id, wallClock)))
  }

  /** A key was decided, or the request answered from its decision. */
  predicate Counts(s: Tables, s': Tables, out: Outcome) {
    D.Accepts(out) || s'.idempotency != s.idempotency || (out.Responded? && out.kind.DuplicateKind?)
  }

  lemma AcceptNonces(s: Tables, fp: FailPoints, nonce: string, env: Envelope, fields: seq<string>, now: int)
    ensures var (s', out) := Accept(s, fp, nonce, env, fields, now);
            && (s'.nonces == s.nonces || s'.nonces == WithNonce(s.nonces, nonce, env.transferId, now))
            && (Counts(s, s', out) ==> s'.nonces == WithNonce(s.nonces, nonce, env.transferId, now))
  {
  }

  lemma RefuseNonces(s: Tables, fp: FailPoints, nonce: string, env: Envelope, refusal: Redaction.Refusal, now: int)
    ensures var (s', out) := Refuse(s, fp, nonce, env, refusal, now);
            && (s'.nonces == s.nonces || s'.nonces == WithNonce(s.nonces, nonce, env.transferId, now))
            && (Counts(s, s', out) ==> s'.nonces == WithNonce(s.nonces, nonce, env.transferId, now))
  {
  }

  lemma FirstNonces(s: Tables, fp: FailPoints, nonce: string, env: Envelope, verdict: Verdict, now: int, wallClock: int)
    requires nonce !in s.nonces && env.idempotencyKey !in s.idempotency
    ensures var (s', out) := Decide(s, fp, nonce, env, verdict, now, wallClock);
            && NoncesAfter(s.nonces, s'.nonces, nonce, env.transferId, now, wallClock)
            && (Counts(s, s', out) ==> s'.nonces == WithNonce(s.nonces, nonce, env.transferId, now))
  {
    match verdict {
      case Success(fields) => AcceptNonces(s, fp, nonce, env, fields, now);
      case Failure(refusal) => RefuseNonces(s, fp, nonce, env, refusal, now);
    }
  }

  lemma KnownNonces(s: Tables, fp: FailPoints, nonce: string, env: Envelope, verdict: Verdict, now: int, wallClock: int)
    requires nonce !in s.nonces && env.idempotencyKey in s.idempotency
    ensures var (s', out) := Decide(s, fp, nonce, env, verdict, now, wallClock);
            && NoncesAfter(s.nonces, s'.nonces, nonce, env.transferId, now, wallClock)
            && (Counts(s, s', out) ==> s'.nonces == WithNonce(s.nonces, nonce, env.transferId, now))
  {
    var b := s.idempotency[env.idempotencyKey];
    if b.transferId != env.transferId || b.payloadHash != env.payloadHash {
      AsideNonces(s, fp, nonce, env, "IDEMPOTENCY_KEY_CONFLICT", wallClock);
    } else if b.outcome.Accepted? && (b.receiptId.None? || b.receiptId.value !in s.receipts) {
      AsideNonces(s, fp, nonce, env, "IDEMPOTENCY_RECEIPT_DIVERGENCE", wallClock);
    }
  }

  lemma AsideNonces(s: Tables, fp: FailPoints, nonce: string, env: Envelope, code: string, wallClock: int)
    ensures var (s', out) := Quarantine(s, fp, nonce, env, code, wallClock);
            && (s'.nonces == s.nonces || s'.nonces == WithNonce(s.nonces, nonce, env.transferId, wallClock))
            && !Counts(s, s', out)
  {
  }

  lemma StepNonces(s: Tables, step: D.Step) returns (nonce: string, id: string)
    ensures var (s', out) := D.Apply(s, step);
            && NoncesAfter(s.nonces, s'.nonces, nonce, id, step.now, step.wallClock)
            && (Counts(s, s', out) ==>
                  step.request.nonce == Some(nonce) && s'.nonces == WithNonce(s.nonces, nonce, id, step.now))
  {
    nonce, id := "", "";
    ScreenIff(step.request, step.now);
    if step.disabled || !Presentable(step.request, step.now) {
      D.ScreenedIsSame(s, step);
    } else if step.request.nonce.value in s.nonces {
      D.ReplayIsSame(s, step);
    } else {
      var env := step.request.body.envelope;
      nonce, id := step.request.nonce.value, env.transferId;
      D.ScreenPassesOn(s, step.fp, step.request, step.verdict, step.now, step.wallClock);
      if env.idempotencyKey in s.idempotency {
        KnownNonces(s, step.fp, nonce, env, step.verdict, step.now, step.wallClock);
      } else {
        FirstNonces(s, step.fp, nonce, env, step.verdict, step.now, step.wallClock);
      }
    }
  }

  /** A request that decides a key, or is answered from its decision, spends its nonce for ten minutes. */
  lemma DecidedSpends(s: Tables, step: D.Step)
    requires Counts(s, D.Apply(s, step).0, D.Apply(s, step).1)
    ensures step.request.nonce.Some?
    ensures forall t :: t <= step.now + 600_000 ==> SpentAt(D.Apply(s, step).0, step.request.nonce.value, t)
  {
    var _, _ := StepNonces(s, step);
  }

  lemma RecordStays(before: map<string, NonceRecord>, after: map<string, NonceRecord>, nonce: string, id: string,
                    now: int, wallClock: int, spent: string, until: int)
    requires NoncesAfter(before, after, nonce, id, now, wallClock) && now <= until && wallClock <= until
    requires spent in before && until <= before[spent].seenAt + before[spent].windowMs
    ensures spent in after && after[spent] == before[spent]
  {
  }

  /** A spent nonce stays as it is until its window has passed. */
  lemma SpentStays(s: Tables, step: D.Step, spent: string, until: int)
    requires SpentAt(s, spent, until) && step.now <= until && step.wallClock <= until
    ensures SpentAt(D.Apply(s, step).0, spent, until)
  {
    var nonce, id := StepNonces(s, step);
    RecordStays(s.nonces, D.Apply(s, step).0.nonces, nonce, id, step.now, step.wallClock, spent, until);
  }

  lemma {:induction false} SpentStaysOver(s: Tables, steps: seq<D.Step>, nonce: string, until: int)
    requires SpentAt(s, nonce, until)
    requires forall i :: 0 <= i < |steps| ==> steps[i].now <= until && steps[i].wallClock <= until
    ensures SpentAt(D.After(s, steps), nonce, until)
    decreases |steps|
  {
    if steps != [] {
      SpentStays(s, steps[0], nonce, until);
      SpentStaysOver(D.Apply(s, steps[0]).0, steps[1..], nonce, until);
    }
  }

  /** Until its window has passed, a spent nonce decides nothing more, whatever comes with it. */
  lemma SpentNonceDecidesNothing(s: Tables, between: seq<D.Step>, later: D.Step, nonce: string)
    requires SpentAt(s, nonce, later.now) && later.request.nonce == Some(nonce)
    requires forall i :: 0 <= i < |between| ==> between[i].now <= later.now && between[i].wallClock <= later.now
    ensures var s1 := D.After(s, between);
            var (s', out) := D.Apply(s1, later);
            D.SameTables(s1, s') && !D.Accepts(out)
  {
    SpentStaysOver(s, between, nonce, later.now);
    var s1 := D.After(s, between);
    ScreenIff(later.request, later.now);
    if later.disabled || !Presentable(later.request, later.now) { D.ScreenedIsSame(s1, later); }
    else { D.ReplayIsSame(s1, later); }
  }
}
