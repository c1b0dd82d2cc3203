# Verification of the ARMA integrations

This project models the hard core of the repository's sandbox integrations in Dafny and proves
what they promise. It has five parts.

**The Law Shield transfer protocol.** ARMA drives a transfer through a state machine with bounded
retries (`ArmaTransfers.dfy`), the gateway signs a receipt (`LawShieldGateway.dfy`), and the durable
processor decides inside snapshot-and-restore transactions (`LawShieldStore.dfy`,
`LawShieldProcessor.dfy`). `LawShieldDecisions.dfy` proves what every run of the processor keeps and
`LawShieldAdmissions.dfy` exactly which requests it accepts, rejects and quarantines,
`LawShieldRepeats.dfy` what becomes of all later ones for a key; `ArmaSends.dfy` and
`ArmaReconciliations.dfy` prove what every run of ARMA keeps, `ArmaClearances.dfy` what stands
behind everything it sends, `ArmaAnswers.dfy` what each answer does to a transfer, and
`ArmaAudit.dfy` what the audit trail is worth. `LawShieldProtocol.dfy` puts the two sides together
over a network that loses, delays, repeats and misdirects messages, and `LawShieldDelivery.dfy`
follows an exchange without faults to its end. `LawShieldTraces.dfy` follows what was sent through
that network, `LawShieldClock.dfy` puts the whole under one clock, and `LawShieldRejections.dfy`
says what a rejection is worth. `Redaction.dfy` and `RedactionAgreement.dfy` hold the two
independent implementations of the disclosure rule and how far they agree, `RedactionRecords.dfy`
that nothing is lost unlogged, `RedactionCodes.dfy` the code a payload is quarantined with.

**The PATCHES activation protocol.** `PartnerServer.dfy` is the partner server and its store,
`PartnerClient.dfy` the failure classification and the bounded send loop. `PartnerStatuses.dfy`
proves what the server's receipts say of its statuses, `PartnerReplays.dfy` that each is given once,
`PartnerEvents.dfy` what the event log is worth; `PartnerExchange.dfy` that the client's classes are
sound for the server, and `PartnerRetries.dfy` that they are exact. `ActivationService.dfy` is
ARMA's durable state machine, `ActivationStatuses.dfy` where each call leaves it,
`ActivationSends.dfy` when it sends, and `ActivationProtocol.dfy` agreement and at-most-once, which
`ActivationClock.dfy` puts under one clock. `ActivationGaps.dfy`, `ActivationEvidence.dfy` and
`PartnerOverlap.dfy` say where service and server do less than their comments promise, and exactly
when.

**The certification reporter.** `TapLanes.dfy` reads test output in the line format of the Test
Anything Protocol version 13 (plan, directives) into rows, `CertificationReport.dfy` assembles the
report, `CertificationVerifier.dfy` checks a finished one; `CertificationResults.dfy`,
`CertificationEvidence.dfy` and `CertificationVerdicts.dfy` prove what the report is worth.

**Webhooks.** `WebhookEvents.dfy` is the receiver, `WebhookOrdering.dfy` what it accepts over any run,
`WebhookDelivery.dfy` the retrying sender.

**The rate limiter.** `RateLimiter.dfy`, over real numbers.

## Form

Code that changes things step by step is a class with methods, or a method with a loop, and each such
method is proved equal to a function on whole values (`Process`, `Handle`, `Settled`, `Collected`,
`Assembled`, ...). What the repository promises is then proved about those functions over every
input, every run or every reachable state. ARMA's asynchronous operations are split at their awaits,
and whatever else may run meanwhile is an event of its own. The partner server's create awaits the
downstream service: `ActivationProtocol.dfy` takes it as one atomic step, `PartnerOverlap.dfy` splits
it there (`HandleIsBoth`) and says what that changes.

## Assumptions

- SHA-256 and HMAC are abstract: a hash is a function (injective where a proof needs it) and a
  matching signature exists only for what its owner signed. Error responses and status views, which
  carry no signature, are taken as the server's own.
- The signer's nonces are well formed and fresh where `LawShieldRejections.dfy` says that a request on
  the wire can still be decided; agreement and the send discipline hold for all nonces.
- Transfer ids and request ids are not reused. `AcceptanceCanBeOverwritten` and `RevokedCanBeRecreated`
  show why; the second is what makes `ACT-<request id>` a primary key.
- Where ARMA and the partner server are taken together, one request at the server is one atomic step.
  A pre-delivery network error means the request never left.
- What depends on the age of a request (`LawShieldClock.dfy`, `ActivationClock.dfy` and what is built
  on them) is said for one clock that all parties share, that does not run back, and that reads the
  same throughout one synchronous step. All else about those protocols holds for any clocks.
- Clocks, fail points, the kill switches, policy and reference tables, what text screening objects
  to and what a transport or downstream service answers are parameters; every theorem holds for all
  their values unless it names a restriction.
- All table keys of the processor carry one schema version, which is therefore dropped from them.
- The limiter's bound needs a clock that does not run back (`ClockMustNotRunBack`).

## Where the code does other than its documentation says

- The redactor is said to redact anything deeper than one level; it does not, and the processor then
  refuses the payload (`RedactedPassesIff`, `DeepRedactionCanBeRefused`).
- A terminal gateway failure is said to mean that the transfer never left ARMA; the processor may
  have accepted it (`RejectedYetHeld`), or may still do so as long as a request of it is live
  (`RejectionIsSafeIff`): inside the gateway's five minutes, or passed on and inside the processor's
  ten. ARMA's own record tells when that is over: never sent, or `sentAt` more than ten minutes ago
  (`LongSentIsSafe`).
- A quarantined payload's code depends on its field names: one that spells "always-redacted" counts as an
  always-redacted field (`UncleanCode`).
- REVOKED is said to be terminal; a create under a new key and the request id that made the activation
  makes it ACTIVE again, and the request id is the client's to choose (`RevokedStaysIff`,
  `RevokedCanBeRecreated`).
- `resume` re-sends the create of an ACTIVE activation (`ResumeSendsIff`); failed status queries
  count towards the number of 404s (`OneNotFoundCanBeEnough`) and concurrent ones count once
  (`ConcurrentQueriesCountOnce`); the 404 proves that the create never persisted only if no other
  request for its key is bound or can still be served (`NotFoundIsProofIff`, `NotFoundProvesNothing`),
  as after a single attempt (`SoleAttemptIsProof`); an intent beside an unsent one is collapsed unless
  it gives no key (`SecondRecordIff`, `OmittedKeyDoubles`).
- The partner server is said to do everything after the idempotency lookup in one transaction; the
  downstream call comes between, and the key is not looked up again. Two requests for one key that
  wait there together make an activation each (`EndsWithOneIff`, `OverlapMakesTwo`).
- The report verifier does not compare the category counts with the rows
  (`CategoriesAreSelfChecked`, `CategoryCountsAreNotCompared`). A test without a name makes the
  assembled report fail its own verification when it is the first with its test id
  (`PipelineHoldsIff`), and is folded away when it is not (`NamelessHides`). Divergent evidence leaves
  a row that depends on the order of the lanes when it disagrees on more than the result
  (`OrderMattersIff`).
- A webhook nonce is said to be burnt by any use; only an accepted event burns it
  (`NonceIsBurntIffAccepted`, `RefusedNonceIsTakenAgain`). The guard is asked after the signature, not
  before the body hash. A delivery service with a longer schedule of its own still stops after six
  attempts, since its retry policy keeps the default schedule.

## Model

| member | source | states |
|---|---|---|
| Redaction.RedactPayload | law-shield/arma/redaction.js:48-100 | ARMA's redactor: fails without a policy or on anything but an object; else the payload is exactly the fields the policy keeps (filtered one level down), with every dropped name logged in order |
| Redaction.FilterObject | law-shield/arma/redaction.js:48-100 | filtering one object keeps the allowed, never-redacted keys and appends the dropped names to the log |
| Redaction.FilterItems | law-shield/arma/redaction.js:48-100 | inside an array every object-like entry, an inner array included, becomes a filtered object |
| Redaction.EnforceDisclosurePolicy | law-shield/lawshield/durable/processor.js:103-133 | the processor's check: the violations it reports and the field paths it clears, at every depth |
| Redaction.CheckEntry | law-shield/lawshield/durable/processor.js:103-133 | the recursive walk over one object extends both lists by exactly that object's paths |
| RedactionAgreement.PassesIffClean | law-shield/lawshield/durable/processor.js:103-133 | the processor finds no violation exactly when no key at any depth is unlisted or always-redacted |
| RedactionAgreement.RedactionIdempotent | law-shield/arma/redaction.js:48-100 | redacting a redacted payload changes nothing and logs nothing |
| RedactionAgreement.RedactedPassesIff | law-shield/lawshield/durable/processor.js:103-133 | redactor output passes the processor exactly when the sub-values it keeps are clean at every depth; the redactor's own promise that anything deeper is redacted does not hold |
| RedactionAgreement.ShallowRedactionIsAccepted | law-shield/arma/redaction.js:48-100 | when the kept sub-values hold no further objects, redactor output is always accepted |
| RedactionAgreement.DeepIsRefused | law-shield/arma/redaction.js:48-100 | under any policy a forbidden field two levels down is left alone by the redactor and makes the processor refuse the payload |
| RedactionAgreement.DeepRedactionCanBeRefused | law-shield/arma/redaction.js:8-100 | so an evidence manifest, under the policy of its own record type, can be redacted with nothing logged and yet be refused |
| RedactionAgreement.AcceptedIsUnchangedIff | law-shield/arma/redaction.js:48-100 | a payload the processor accepts is returned unchanged by the redactor exactly when it holds no array directly inside an array |
| RedactionAgreement.IdentifiersNeverLeave | law-shield/arma/redaction.js:8-46 | no policy keeps a personal identifier, in whatever letter case its name is written |
| RedactionRecords.LeavesIff | law-shield/arma/redaction.js:48-100 | a field below the top level leaves, unchanged, exactly when its own name and the one above it may |
| RedactionRecords.LoggedIff | law-shield/arma/redaction.js:48-100 | the log names exactly the fields dropped at the top level and one level below a field that is kept |
| RedactionRecords.NothingIsLost | law-shield/arma/redaction.js:48-100 | conservation: every field the redactor looks at is kept or logged, and none is both |
| RedactionCodes.UncleanCode | law-shield/lawshield/durable/processor.js:103-133 | which of its two codes an unclean payload is refused with: always-redacted if the check comes to such a key at some depth, beyond the minimum if it does not and no field name spells the two words |
| LawShieldStore.DurableStore.Restore | law-shield/lawshield/durable/store.js:93-99 | an aborted transaction puts every table and the audit counter back |
| LawShieldStore.DurableStore.RegisterNonce | law-shield/lawshield/durable/store.js:193-210 | prunes expired nonces, refuses a malformed or remembered one, records a new one |
| LawShieldStore.DurableStore.ResolveIdempotencyKey | law-shield/lawshield/durable/store.js:218-230 | an unbound key, a repeat of the bound content, or a conflict with another transfer or hash |
| LawShieldStore.DurableStore.BindIdempotencyKey | law-shield/lawshield/durable/store.js:231-242 | the first binding of a key wins, in the registry and in the secondary index |
| LawShieldStore.DurableStore.CreateDurableTransfer | law-shield/lawshield/durable/store.js:249-273 | stores a transfer unless its fail point is set or another content or status holds its id |
| LawShieldStore.DurableStore.CreateReceiptRecord | law-shield/lawshield/durable/store.js:283-293 | stores a receipt once, unless its fail point is set |
| LawShieldStore.DurableStore.AppendAudit | law-shield/lawshield/durable/store.js:299-310 | appends one event numbered after all before it, unless its fail point is set |
| LawShieldProcessor.ProcessTransferRequest | law-shield/lawshield/durable/processor.js:232-428 | table-by-table writes with rollback come to one atomic step on whole tables: screening, replay, idempotency, business checks, decision; which requests that accepts is AcceptedIff |
| LawShieldProcessor.AcceptTransfer | law-shield/lawshield/durable/processor.js:387-428 | acceptance writes nonce, transfer, receipt, binding and audit, or nothing but a failure audit |
| LawShieldProcessor.RefuseTransfer | law-shield/lawshield/durable/processor.js:349-385 | a refusal or quarantine is stored with its nonce, transfer, binding and audit, or not at all |
| LawShieldProcessor.QuarantineIntegrityConflict | law-shield/lawshield/durable/processor.js:435-477 | a contradiction is recorded aside under its own id, or only audited when the transfer id holds other content |
| LawShieldProcessor.CollapseDuplicate | law-shield/lawshield/durable/processor.js:304-336 | a repeat spends its nonce and gets the stored answer; a failed audit write is thrown on |
| LawShieldProcessor.RecordPersistenceFailure | law-shield/lawshield/durable/processor.js:482-497 | a failed write leaves one best-effort audit event and an error answer |
| LawShieldProcessor.RunBusinessChecks | law-shield/lawshield/durable/processor.js:140-171 | the first objection of authorizer, mappings and disclosure policy, told on the directory by VerdictIff and RefusalCode |
| LawShieldDecisions.ReachableTablesAgree | law-shield/lawshield/durable/store.js:218-293 | in every reachable store bindings, index, transfers and receipts agree: an accepted transfer has exactly one receipt and no other transfer has any; events are numbered 1 to n |
| LawShieldDecisions.ProcessKeeps | law-shield/lawshield/durable/processor.js:232-428 | one request, under any fail points, clocks and verdict, keeps that invariant and never changes or drops a row |
| LawShieldDecisions.AllOrNothing | law-shield/lawshield/durable/processor.js:351-428 | under every combination of failing writes the tables end as they were or hold the whole request; every error leaves them as they were; audit only grows |
| LawShieldDecisions.AcceptanceIsDurable | law-shield/lawshield/durable/processor.js:390-428 | an acceptance is answered only once binding, transfer and receipt are stored, and carries the request's transfer and payload hash |
| LawShieldDecisions.AcceptancesAgree | law-shield/lawshield/durable/processor.js:294-336 | any two acceptances of one run for one key, or for one transfer id, are equal in all fields |
| LawShieldDecisions.RefusalsAreFinal | law-shield/lawshield/durable/processor.js:324-336 | a key decided against never yields an acceptance again |
| LawShieldDecisions.StatusReportsTheDecision | law-shield/lawshield/durable/processor.js:525-566 | asked by key, the status inquiry reports the key's decision, now and after any further requests: with its receipt if accepted, with no receipt and no receipt id otherwise, and with the key's own outcome as binding outcome whenever the key the row was stored under is bound to that transfer |
| LawShieldAdmissions.VerdictIff | law-shield/lawshield/durable/processor.js:103-175 | the business checks pass exactly when the authorizer is listed, active and of the sending organisation, active mappings lead to the receiving organisation and case, and no key at any depth is unlisted or always-redacted |
| LawShieldAdmissions.ScreenIff | law-shield/lawshield/durable/processor.js:232-283 | screening passes exactly the well-formed, unaltered requests of this schema, about the transfer their header names, within ten minutes of sending |
| LawShieldAdmissions.AcceptedIff | law-shield/lawshield/durable/processor.js:232-428 | from any store, a request is accepted exactly when it is the first delivery of its key, passes screening under a fresh nonce, its parties stand in the directory, its payload is clean, no other content holds its id and no write fails |
| LawShieldAdmissions.RefusalCode | law-shield/lawshield/durable/processor.js:103-175 | which objection is the first: each code with the exact state of directory and payload it stands for |
| LawShieldAdmissions.RefusedSays | law-shield/lawshield/durable/processor.js:337-385 | where nothing fails, every other first delivery is answered and stored with that code: quarantined exactly when the parties stand and a payload of a known type is unclean, rejected otherwise |
| LawShieldAdmissions.AcceptedStores | law-shield/lawshield/durable/processor.js:387-428 | what an acceptance leaves, field by field: row, binding, receipt and one audit event, all of this request |
| LawShieldAdmissions.StoredRowsAreJustified | law-shield/lawshield/durable/processor.js:232-428 | in every run from the empty store under one directory, each ACCEPTED row was asked for by a request with its key, content and parties that may be disclosed, each REJECTED row by one that may not |
| LawShieldAdmissions.SpentNonceDecidesNothing | law-shield/lawshield/durable/store.js:193-210 | until its ten minutes have passed, and through every run in between, a spent nonce decides nothing more, whatever request comes with it |
| LawShieldAdmissions.DecidedSpends | law-shield/lawshield/durable/store.js:193-210 | every request that decides a key, or is answered from its decision, spends its nonce for ten minutes |
| LawShieldAdmissions.FailuresAreAudited | law-shield/lawshield/durable/processor.js:479-497 | a first delivery that ends in an error leaves all tables as they were and one audit event that says so, unless that cannot be written |
| LawShieldRepeats.RepeatSays | law-shield/lawshield/durable/processor.js:304-336 | every repeat, whatever the checks would say of it now, is told what its key was decided, field for field, spends its nonce, adds one audit event and changes nothing else; or nothing happens at all |
| LawShieldRepeats.ConflictSays | law-shield/lawshield/durable/processor.js:430-477 | every request for a bound key with another transfer or content is refused: set aside as a quarantined row of its own, or audited beside the transfer it contradicts, exactly when that can be written, and an error without effect otherwise; bindings, receipts and rows stay |
| ArmaTransfers.ArmaTransferService.CreateTransfer | law-shield/arma/persistence.js:61-89 | refuses a used idempotency key; does not check the transfer id, so a used one is overwritten |
| ArmaTransfers.ArmaTransferService.CreateDraftTransfer | law-shield/arma/transferService.js:52-77 | a known human actor's draft, with the payload redacted; the first objection otherwise |
| ArmaTransfers.ArmaTransferService.AuthorizeTransfer | law-shield/arma/transferService.js:79-113 | a qualified human's authorization is recorded and the transfer moves on, or nothing changes |
| ArmaTransfers.ArmaTransferService.MarkReady | law-shield/arma/transferService.js:115-150 | organisation and case mappings are checked against the destination before READY_TO_SEND |
| ArmaTransfers.ArmaTransferService.BeginSend | law-shield/arma/transferService.js:152-195 | send up to the fetch: SENT and the payload hash are stored before anything leaves |
| ArmaTransfers.ArmaTransferService.CompleteSend | law-shield/arma/transferService.js:196-260 | send after the fetch: the answer's disposition is recorded on the live record; what each answer comes to is AnswerDecides |
| ArmaTransfers.ArmaTransferService.RecordTransportFailure | law-shield/arma/transferService.js:264-290 | a timeout opens reconciliation; any other error schedules a retry or gives up |
| ArmaTransfers.ArmaTransferService.RecordGatewayFailure | law-shield/arma/transferService.js:296-332 | ambiguous codes open reconciliation, clean ones retry within the schedule, all others reject; which codes are which is DisposedSays |
| ArmaTransfers.ArmaTransferService.RecordReceipt | law-shield/arma/transferService.js:205-256 | a verified receipt accepts the transfer; any other opens reconciliation |
| ArmaTransfers.ArmaTransferService.ScheduleRetry | law-shield/arma/retryPolicy.js:9-26 | the next attempt follows the five-step schedule, after which the transfer is rejected |
| ArmaTransfers.ArmaTransferService.OpenReconciliation | law-shield/arma/persistence.js:100-110 | opens a reconciliation unless one is open |
| ArmaTransfers.ArmaTransferService.RejectTransfer | law-shield/arma/transferService.js:335-350 | a human may reject anything not in flight, accepted or rejected |
| ArmaTransfers.ArmaTransferService.ResolveReconciliation | law-shield/arma/reconciliation.js:24-46 | check by check as in the source: authenticated human, role, transfer, organisation, answer, note, open record; then answer and resolver are set and nothing else |
| ArmaReconciliations.OnlyAuthorizersResolve | law-shield/arma/reconciliation.js:24-46 | over every run, whatever else happens, a reconciliation is answered only by a human authorizer of the transfer's organisation with a note, who is recorded; nothing else about it changes |
| ArmaReconciliations.ResolvedIsFinal | law-shield/arma/persistence.js:112-118 | a RESOLVED reconciliation keeps its answer and its resolver through every later run: not even a new doubt reopens it |
| ArmaReconciliations.QuarantinedCanBeResolved | law-shield/arma/persistence.js:112-118 | QUARANTINED is not final: whoever answered it so can answer RESOLVED afterwards |
| ArmaSends.SendDiscipline | law-shield/arma/transferService.js:152-332 | in every run and interleaving: at most six sends of a transfer and at most one outstanding; every send was authorized, its payload is redacted, and all sends of a transfer share key, payload and hash while no two transfers share a key |
| ArmaSends.ClosedForGood | law-shield/arma/transferService.js:264-332 | a transfer in RECONCILIATION_REQUIRED has a record and is never sent again; ACCEPTED and REJECTED are final |
| ArmaSends.MoveKeeps | law-shield/arma/transferService.js:52-350 | every operation of the service keeps the send invariant, and statuses move only forward |
| ArmaSends.DispositionFits | law-shield/arma/retryPolicy.js:9-33 | a retry is scheduled only while the schedule lasts; only a verified receipt confirms |
| ArmaSends.DraftSparesAcceptanceIff | law-shield/arma/persistence.js:62-87 | a draft leaves an accepted transfer standing exactly when it is refused or names another id |
| ArmaSends.AcceptanceCanBeOverwritten | law-shield/arma/persistence.js:62-87 | such a draft exists, which is why fresh transfer ids are assumed |
| ArmaAnswers.VerifiesIff | law-shield/arma/receiptVerifier.js:17-57 | a receipt verifies exactly when it is whole, signed, ACCEPTED, and names this very send in all seven fields |
| ArmaAnswers.DisposedSays | law-shield/arma/receiptVerifier.js:60-79 | the disposition, told by the answer: retried exactly when the processor was certainly not reached and the schedule lasts, in doubt exactly on a timeout, an unverified receipt, PROCESSOR_TIMEOUT or PROCESSOR_RECEIPT_MISMATCH |
| ArmaAnswers.AnswerDecides | law-shield/arma/transferService.js:196-332 | after a settled send in any reachable state: ACCEPTED exactly on a receipt for this send, READY_TO_SEND exactly when the processor was certainly not reached and fewer than five retries were made, with the delay of the schedule, RECONCILIATION_REQUIRED with an open reconciliation exactly when that is in doubt, REJECTED otherwise |
| ArmaAnswers.GatewayTells | law-shield/lawshield/arma-integration.js:14-85 | what the gateway's answer is for ARMA: a receipt exactly for an acceptance of this transfer, in doubt exactly when its call timed out or was answered for another transfer or payload, or the processor says so, not reached exactly when no connection was made or the processor says that |
| ArmaAnswers.UndecidedIsNeverResent | law-shield/arma/transferService.js:152-332 | once the gateway's call timed out, or its reply named another transfer or payload, the transfer is in reconciliation and in no later run is it sent again |
| ArmaAnswers.RefusedConnectionIsRetried | law-shield/arma/retryPolicy.js:9-33 | a connection the gateway could not make puts the transfer back to READY_TO_SEND five times, and then rejects it |
| ArmaClearances.DraftedIff | law-shield/arma/transferService.js:52-77 | a draft is stored exactly with sending enabled, for a known human, a record type with a policy, an object and an unused key, and holds the redacted payload |
| ArmaClearances.AuthorizedIff | law-shield/arma/transferService.js:79-113 | an authorization goes through exactly for a draft, with sending enabled, from a human with the role and of the organisation, with active mappings and a reason of ten letters |
| ArmaClearances.ReadyIff | law-shield/arma/transferService.js:115-150 | a transfer becomes ready exactly from AUTHORIZED, with sending enabled and active mappings to its destination and case |
| ArmaClearances.RejectedIff | law-shield/arma/transferService.js:335-350 | a rejection goes through exactly from a known human for a transfer neither in flight nor decided |
| ArmaClearances.SentIff | law-shield/arma/transferService.js:152-195 | a send goes out exactly with sending enabled, for a ready transfer with all its fields, past text screening |
| ArmaClearances.EverySendWasCleared | law-shield/arma/transferService.js:79-195 | in every run and interleaving, with mappings and roles changing under way: behind each send stands an authorization by the human it names, qualified when it was given, and a route to its destination and case, in force when the transfer was made ready |
| ArmaAudit.TrailTellsAll | law-shield/arma/transferService.js:52-350 | in every run and interleaving the audit's last event about a transfer tells its status and, with a code, its error; nothing is told of a transfer that is not stored; and each send has exactly one event |
| LawShieldGateway.ReplayGuard.Remember | law-shield/lawshield/arma-integration.js:52-57 | the gateway's first-layer guard takes a nonce unless it is remembered within its window |
| LawShieldProtocol.VerifiedNamesTheSend | law-shield/arma/receiptVerifier.js:17-57 | a receipt that verifies against a send names that send's transfer and content |
| LawShieldProtocol.SignedIsHeld | law-shield/lawshield/arma-integration.js:67-79 | the gateway signs only what the processor told it, about the transfer it forwarded |
| LawShieldProtocol.AcceptedOnBothSides | law-shield/arma/transferService.js:205-256 | end-to-end agreement: over a lossy, delaying, repeating network, what ARMA holds as accepted the processor holds as accepted, with the same payload hash and that receipt |
| LawShieldProtocol.ResendsCollapse | law-shield/lawshield/durable/processor.js:294-336 | ARMA's own request for a decided key stores no row and is answered with the stored receipt, field for field, or with the stored error code; for an undecided key its transfer is not stored: none is taken for a conflict |
| LawShieldProtocol.OneReceiptPerTransfer | law-shield/lawshield/durable/processor.js:390-428 | with ARMA the only sender every stored transfer is ARMA's, and none has two receipts |
| LawShieldDelivery.UndisturbedEndsAccepted | law-shield/arma/transferService.js:196-256 | in every reachable system a send that meets nothing against it at the processor, and whose answer arrives as given, ends ACCEPTED at ARMA under the processor's receipt and held as accepted at the processor |
| LawShieldTraces.NeverSentIsNeverStored | law-shield/arma/transferService.js:150-191 | in every reachable system a transfer without a payload hash, one that was never sent, is not stored by the processor |
| LawShieldClock.TimedReachableIsSound | law-shield/arma/transferService.js:160-185 | under one clock that does not run back every request was signed at the time it says it was sent, none in the future, and the record's time of sending is that of its last send |
| LawShieldRejections.RejectionIsSafeIff | law-shield/lawshield/durable/processor.js:268-272 | what REJECTED at ARMA is worth, for every reachable system on the clock whose nonces are well formed and fresh: a transfer not stored yet stays unstored through every later run exactly when none of its requests is still in the gateway's window, or passed on and in the processor's |
| LawShieldRejections.LongSentIsSafe | law-shield/arma/transferService.js:322-331 | what ARMA can read off its record, whatever the nonces: never sent, or last sent more than the processor's window ago, a rejected transfer not stored stays so for good |
| LawShieldRejections.JustSentIsUnsafe | law-shield/lawshield/_integrationSecurity.js:64-86 | last sent within the gateway's window, a rejected transfer is stored by some later run |
| LawShieldRejections.OutstandingCanGoEitherWay | law-shield/arma/transferService.js:196-332 | with a send outstanding and its request live, the transfer not stored, one run ends in REJECTED with the processor holding it accepted, another in REJECTED with nothing stored |
| LawShieldRejections.RejectedYetHeld | law-shield/arma/transferService.js:322-331 | a run from the start, on the clock, that ends with a transfer REJECTED at ARMA and accepted, with receipt, at the processor |
| PartnerServer.PartnerStore.Restore | patches/lib/store.ts:457-472 | an aborted transaction puts every table back |
| PartnerServer.PartnerStore.PruneNonces | patches/lib/store.ts:366-370 | drops exactly the nonces from before the window |
| PartnerServer.PartnerStore.RegisterNonce | patches/lib/store.ts:357-364 | the first registration of a nonce stays |
| PartnerServer.PartnerStore.AppendAudit | patches/lib/store.ts:396-412 | appends one numbered event unless its fail point is set |
| PartnerServer.ResolveActivation | patches/lib/server.ts:166-230 | a create up to the downstream call: input, policy and idempotency, with the answer it settles on, or the call with nothing changed |
| PartnerServer.CreateFresh | patches/lib/server.ts:230-253 | a create from the downstream answer on, whatever the tables have become meanwhile: activation, receipt, binding, event and audit are stored together or none of them, and the key is not looked up again |
| PartnerServer.ProcessStateChange | patches/lib/server.ts:258-307 | deactivate and revoke: repeats are no-ops, a revoked activation stays revoked, changes are stored whole or not at all; the status left is that of ReceiptsTellStatuses |
| PartnerServer.RecordPersistenceFailure | patches/lib/server.ts:309-315 | after a rollback one audit event and a 500, or, if that write fails too, no answer |
| PartnerServer.HandleRequest | patches/lib/server.ts:433-555 | kill switch, route, body, authentication with replay check, rate limit, route logic, nonce registration, in this order; a create with nothing in between |
| PartnerStatuses.ChangesAreAnswered | patches/lib/server.ts:258-307 | with policy and writes allowing, revoking a stored activation always answers a receipt of that operation; deactivating one answers 409 exactly when it is REVOKED and a receipt otherwise |
| PartnerStatuses.CreatesAreAnswered | patches/lib/server.ts:166-253 | a repeated create gets a receipt for the activation its key is bound to, another body under that key a conflict, and nothing changes; a receipt for a new activation comes exactly when nothing fails, with activation, binding, receipt and event all stored |
| PartnerStatuses.PolicyIsObeyed | patches/lib/server.ts:166-307 | whatever the request, while the policy objects nothing of the four tables changes and neither a receipt nor a view is answered |
| PartnerStatuses.ShownIff | patches/lib/server.ts:433-555 | an activation is shown exactly where it is stored and the policy allows, as it is stored |
| PartnerStatuses.ReceiptsTellStatuses | patches/lib/server.ts:166-307 | whatever fails, a request leaves a status as it was or sets the one its receipt reports for that activation; and what a receipt reports is so afterwards |
| PartnerStatuses.StatusesGoBackToReceipts | patches/lib/server.ts:433-555 | in every run from the empty store ACTIVE goes back to a create receipt, DEACTIVATED to a deactivate receipt and REVOKED to a revoke receipt of that activation |
| PartnerStatuses.RevokedStaysIff | patches/lib/server.ts:230-307 | a request leaves a revoked activation revoked exactly when it is not a create, for an unbound key and with nothing against it, under the request id that made the activation; the promise that revocation lasts fails there |
| PartnerStatuses.RevokedCanBeRecreated | patches/lib/server.ts:230-253 | such a request exists: a run of three requests after which a revoked activation is ACTIVE again |
| PartnerStatuses.RevokedIsFinal | patches/lib/server.ts:433-555 | REVOKED is final through every run without such a request |
| PartnerStatuses.RevokedIsFinalInProtocol | patches/lib/server.ts:433-555 | with fresh request ids, as ARMA makes them, REVOKED is final in every later run of every reachable system |
| PartnerReplays.SpendsIff | patches/lib/server.ts:433-555 | an admitted request spends its nonce exactly when it is a POST that is answered, but for bad input and writes rolled back |
| PartnerReplays.ReceiptsAreGivenOnce | patches/lib/security.ts:151-175 | once a request was answered with a receipt, no request with its nonce gets one or changes the tables for ten minutes, whatever is handled in between |
| PartnerReplays.ReceiptsAreNoted | patches/lib/server.ts:166-307 | every receipt for a new activation, a repeat or a changed status has exactly one audit event of its own; a change that was none has none |
| PartnerEvents.EventsTellStatuses | patches/lib/server.ts:166-307 | in every run from the empty store, whatever fails and whatever ids are used again, the event log's last event about an activation tells its status, organisation and capability; of what is not stored there is none |
| PartnerClient.Send | patches/arma/patchesPartnerClient.ts:364-590 | the send loop tries again only after a clean failure and at most maxAttempts times; its last attempt is the first that is not clean, or the last allowed, and decides the outcome: with nothing processed before attempt k, and a success brought by it, the call ends ok at k |
| PartnerExchange.OnlyReceiptsChangeCore | patches/lib/server.ts:166-315 | whatever fails, the server changes activations, bindings, receipts and events only behind a signed receipt |
| PartnerExchange.FailureClassesAreSound | patches/arma/patchesPartnerClient.ts:115-204 | an attempt classified CLEAN_RETRYABLE or TERMINAL left those four tables as they were |
| PartnerExchange.OnlyTheLastAttemptCounts | patches/arma/patchesPartnerClient.ts:387-586 | one call of the client changes the server through its last attempt at most |
| PartnerExchange.FailedCallChangesNothing | patches/arma/patchesPartnerClient.ts:387-586 | a call that ends clean or terminal has changed nothing on the server |
| PartnerRetries.AnswersAreJudged | patches/arma/patchesPartnerClient.ts:100-204 | the classes are exact: of a complete answer to a POST the client tries again exactly when the server stopped at the kill switch, the rate limit, the downstream service or a rolled-back write, succeeds exactly on a receipt, gives up exactly on every other refusal, and is in doubt exactly when nothing was answered |
| PartnerRetries.BrokenIsJudged | patches/arma/patchesPartnerClient.ts:100-135 | of a broken exchange it tries again exactly when the error is one from before delivery, and is in doubt otherwise |
| ActivationService.ArmaActivationService.StartActivate | patches/arma/activationService.ts:124-217 | activate up to its outbound call: collapse of an intent under way, report of a closed key, resume of a key, or a new PENDING record |
| ActivationService.ArmaActivationService.SendCreate | patches/arma/activationService.ts:483-494 | READY_TO_ACTIVATE and ACTIVATION_SENT are stored before the call goes out |
| ActivationService.ArmaActivationService.FinishCreate | patches/arma/activationService.ts:496-570 | the identity hint is that of the first attempt; a verified receipt activates, other outcomes reconcile, reject or quarantine |
| ActivationService.ArmaActivationService.StartResume | patches/arma/activationService.ts:219-264 | closed records are reported, sent ones reconciled, everything else is sent |
| ActivationService.ArmaActivationService.StartReconcile | patches/arma/activationService.ts:374-392 | the status query asks for the verified id or the hint, numbered by the queries so far |
| ActivationService.ArmaActivationService.FinishReconcile | patches/arma/activationService.ts:393-474 | a matching ACTIVE view activates, a mismatch or 403 quarantines, a 404 at the bound sends afresh, all else stays open |
| ActivationService.ArmaActivationService.FinishSync | patches/arma/activationService.ts:273-309 | a matching view moves the record to the server's status, another one quarantines it |
| ActivationService.ArmaActivationService.StartLifecycle | patches/arma/activationService.ts:321-342 | without a server id only revoke acts, and only locally |
| ActivationService.ArmaActivationService.FinishLifecycle | patches/arma/activationService.ts:343-366 | only a verified receipt changes the status; an ambiguous failure opens reconciliation |
| ActivationStatuses.CreateEnds | patches/arma/activationService.ts:496-570 | the status after a create, for each outcome: ACTIVE exactly on a verified receipt, reconciliation exactly in doubt, REJECTED exactly on a terminal refusal not about credentials, QUARANTINED otherwise; the hint is that of the first attempt |
| ActivationStatuses.ReconcileAsks | patches/arma/activationService.ts:374-392 | a reconciliation asks exactly for a record in doubt, about its server id or else its hint; without either the record is quarantined |
| ActivationStatuses.ReconcileEnds | patches/arma/activationService.ts:393-474 | what the answer to a reconciling query does to record, reconciliation and create call, case by case on the view it shows |
| ActivationStatuses.SyncEnds | patches/arma/activationService.ts:273-309 | the record follows the server's status exactly when the view is of its own organisation, capability and binding |
| ActivationStatuses.LifecycleBegins | patches/arma/activationService.ts:321-342 | the server is asked exactly when its id is known and the status aimed at not reached; without an id only a revocation acts |
| ActivationStatuses.LifecycleEnds | patches/arma/activationService.ts:343-366 | the status aimed at on a verified receipt, reconciliation when in doubt, no change otherwise |
| ActivationStatuses.LifecycleAgrees | patches/arma/activationService.ts:321-366 | a revocation or deactivation the server reports done leaves both sides with the same status |
| ActivationStatuses.CollapsedIff | patches/arma/activationService.ts:139-162 | an intent is collapsed into another activation exactly when the first in flight for its binding and capability was perhaps sent or has another key |
| ActivationStatuses.FreshIff | patches/arma/activationService.ts:139-217 | it makes a record of its own exactly when switch, mapping and preflight pass, that activation does not block it and no record has its key |
| ActivationSends.NoBlindResend | patches/arma/activationService.ts:139-264 | over every interleaving and death between writes, with keys and (binding, capability) pairs one to one: a create goes out only for a new or unsent record, after a 404 at the bound, or on resuming an ACTIVE record |
| ActivationSends.SentIsRecorded | patches/arma/activationService.ts:483-494 | PENDING means nothing was ever sent; a crash during the outbound call leaves the record past READY_TO_ACTIVATE |
| ActivationSends.OneSenderPerKey | patches/arma/activationService.ts:160-182 | of all records with one key at most one was ever sent |
| ActivationGaps.ResumeSendsIff | patches/arma/activationService.ts:219-264 | resume sends exactly for PENDING, READY_TO_ACTIVATE, ACTIVE and RECEIPT_VERIFIED; its comment claims the first two only |
| ActivationGaps.AnswersCountByNumber | patches/arma/activationService.ts:388-474 | whatever it says, an answer adds one to the count unless a query with its number was answered before; a 404 leads to a fresh create exactly when its number reaches the bound |
| ActivationGaps.OneNotFoundCanBeEnough | patches/arma/activationService.ts:436-474 | for every bound, a run from the start in which all queries but the last fail and one single 404 sends the create again; the documentation asks for repeated 404s |
| ActivationGaps.ConcurrentQueriesCountOnce | patches/arma/activationService.ts:388-392 | two reconciliations begun side by side carry one number: both answers together count once |
| ActivationGaps.SecondRecordIff | patches/arma/activationService.ts:139-217 | beside an activation in flight for the same binding and capability, activate makes and sends another exactly when the first is unsent, the intent gives no key, no record holds the derived key, and switch, mapping and preflight pass; the documentation promises it never does |
| ActivationGaps.OmittedKeyDoubles | patches/arma/activationService.ts:139-217 | a run with one death between two writes in which two creates for one binding and capability go out under different keys |
| ActivationProtocol.AtMostOneActivation | patches/lib/server.ts:199-253 | at most once, as long as creates do not overlap at the downstream call: each client and key has at most one activation, under any retries, repeats, late deliveries and reconciliations |
| ActivationProtocol.ActiveMeansActivated | patches/arma/activationService.ts:410-519 | agreement: an ACTIVE record carries the id of a server activation for the same organisation, capability and binding |
| ActivationProtocol.HandleServes | patches/lib/server.ts:433-555 | every request keeps the server's tables consistent, changes no binding and no activation's identity, and answers with true receipts and views |
| ActivationEvidence.NotFoundIsProofIff | patches/arma/activationService.ts:436-456 | when the 404 is the proof the comment says it is, for every reachable system on the clock: while nothing is stored under the hint the key is unbound and stays so, whatever is still done with what was sent, exactly when no other request for the key is bound, or inside its signature's window with its nonce unspent till then |
| ActivationEvidence.SoleAttemptIsProof | patches/arma/patchesPartnerClient.ts:387-430 | a key with a single request ever sent is always such a case |
| ActivationEvidence.NotFoundProvesNothing | patches/arma/activationService.ts:436-456 | a run from the start, on the clock, in which the server answers ARMA's query for the hint with 404 although the second attempt of the same create has made the key's activation |
| ActivationEvidence.DeadIsRefused | patches/lib/security.ts:151-175 | a create past its window, or with its nonce remembered to the end of it, is refused whenever it is served, and stores nothing |
| PartnerOverlap.HandleIsBoth | patches/lib/server.ts:166-253 | the two halves of a create, with nothing in between, are the whole request |
| PartnerOverlap.SerialRunsMakeOne | patches/lib/server.ts:199-253 | in every run in which no two requests for one key wait for the downstream service together, each client and key has at most one activation |
| PartnerOverlap.EndsWithOneIff | patches/lib/server.ts:218-253 | from any state of any run whose tables are in order, the creates that wait end with at most one activation per key, however they end, exactly when no two requests wait for one key and none waits for a key another has bound |
| PartnerOverlap.OverlapMakesTwo | patches/lib/server.ts:162-253 | a run in which two attempts for one client and key wait together and are both answered with a receipt for an activation of their own; the comment calls partial divergence impossible |
| TapLanes.ParseTapStream | certification/certify.ts:184-281 | the parser's loop equals reading line by line, with counters, plan and problems as it keeps them |
| TapLanes.ReadCollects | certification/certify.ts:197-250 | one outcome per test line, the last plan and counters, and a problem for exactly the lines not understood, empty names and repeated plans |
| TapLanes.OutcomeReadsItsBlock | certification/certify.ts:220-249 | details attach to the test they follow and to no other: its last failure type, and file-level exactly when an exit code stands there |
| TapLanes.CollectLane | certification/certify.ts:523-600 | a lane's problems, collapse code and rows |
| TapLanes.LaneStandsIff | certification/certify.ts:523-600 | a lane stands exactly when its one plan, test counter, test lines and declaration agree, the counters add up, no line is unreadable, no test nameless, no exit code follows a test line, and the runner did not die without a reported failure |
| TapLanes.LanePassIff | certification/certify.ts:427-480 | a row passes exactly when its lane stands and its own test succeeded |
| TapLanes.FailuresAreNeverBuried | certification/certify.ts:512-522 | a failed test is a FAIL row even in a collapsed lane |
| CertificationReport.GroupById | certification/certify.ts:664-669 | groups evidence by test id in order of first occurrence |
| CertificationReport.ResolveDuplicateEntries | certification/certify.ts:658-711 | one piece of evidence stands, identical repeats prove nothing, divergent ones fail, as VerdictsRestOnRows tells on the lanes; with the counts of both |
| CertificationReport.SummarizeLane | certification/certify.ts:787-807 | a lane's counts are those of the sorted rows attributed to its id |
| CertificationReport.TallyRows | certification/certify.ts:809-827 | totals and per-category counts of the rows |
| CertificationReport.AssembleReport | certification/certify.ts:773-840 | the whole report as a function of the lanes, pinned to their rows by PlaceDecides and VerdictsRestOnRows |
| CertificationVerifier.VerifyReport | certification/certify.ts:864-1002 | the verifier finds nothing exactly when ids are unique, order is strictly canonical and totals, lane sums and category sums fit the rows |
| CertificationResults.AssembledVerifies | certification/certify.ts:773-1002 | with distinct lane ids and well-formed rows the assembled report always verifies |
| CertificationResults.AssembledHoldsIff | certification/certify.ts:773-1002 | whatever the lanes hold, the assembled report verifies exactly when the first row with each test id is well formed, but for its result and reason code if that id recurs, and its lane shares its id with no other |
| CertificationResults.AssembledVerifiesIff | certification/certify.ts:787-807 | with well-formed rows it verifies exactly when no lane that has the first row with some test id shares its own id with another lane |
| CertificationResults.ChangedResultIsFound | certification/certify.ts:914-945 | changing the result of any one row of a verified report makes verification fail |
| CertificationResults.CategoriesAreSelfChecked | certification/certify.ts:954-975 | of the categories of a verified report only their own names, arithmetic, order and sum are checked, never the rows: any others that pass those are accepted |
| CertificationResults.CategoryCountsAreNotCompared | certification/certify.ts:954-975 | turning a category's failures, if it has any, into passes changes the report and is not noticed, though the documentation has categories checked against the rows |
| CertificationResults.FailureHasCategory | certification/certify.ts:809-830 | every assembled report with a failed row has a category that counts a failure |
| CertificationResults.FailingReport | certification/certify.ts:773-840 | such a report exists: it verifies, with one category whose failure can be turned into a pass |
| CertificationEvidence.PassHasOneWitness | certification/certify.ts:658-711 | a PASS in the report is one lane's own PASS row, and no other row of any lane has its id |
| CertificationEvidence.PassIsSound | certification/certify.ts:184-711 | behind a PASS stands exactly one test line among all lanes, ok and without directive, timeout or file-level failure, in a lane whose counts all agree |
| CertificationEvidence.NotOkIsNeverPass | certification/certify.ts:427-711 | a test id with any not-ok outcome is never PASS, even when capping makes ids collide |
| CertificationEvidence.CollectedInOrderIff | certification/certify.ts:427-600 | a properly declared lane yields rows the verifier takes exactly when no test is without a name |
| CertificationEvidence.PipelineHoldsIff | certification/certify.ts:427-1002 | the whole pipeline: for properly declared lanes with distinct ids the assembled report verifies exactly when, for each test id, the first test that got it has a name |
| CertificationEvidence.NamelessHides | certification/certify.ts:427-711 | a nameless test does not always spoil the report: one whose id an earlier named test got is folded into that one's row |
| CertificationEvidence.ResultsIgnoreOrder | certification/certify.ts:658-711 | the same evidence in any order gives each test id the same result and reason code |
| CertificationEvidence.ReportIgnoresOrder | certification/certify.ts:755-840 | where evidence diverges in nothing but results and reason codes, the sorted rows, totals and tallies are identical for every order |
| CertificationEvidence.LanesReorder | certification/certify.ts:773-779 | permuting whole lanes is such a reordering |
| CertificationEvidence.RowsReorder | certification/certify.ts:773-779 | permuting the rows inside lanes is such a reordering |
| CertificationEvidence.OrderMattersIff | certification/certify.ts:699-840 | no reordering of lanes and of rows in them changes the report's rows exactly when the evidence for each test id agrees on category, requirement and source file: the promised order independence ends there |
| CertificationVerdicts.VerdictsRestOnRows | certification/certify.ts:658-711 | on the rows of the lanes: a row of the report is FAIL exactly when the only row with its id is FAIL or two rows with it differ, PASS exactly when the only row with it is PASS, NOT-TESTED otherwise |
| CertificationVerdicts.PlaceDecides | certification/certify.ts:658-711 | what any one place says of the row with its id: reported as it is when its id stands nowhere else, FAIL with ROW_CONFLICTING_EVIDENCE when rows differ, NOT-TESTED with ROW_DUPLICATE_IDENTICAL when it is only repeated |
| CertificationVerdicts.EveryPlaceIsReported | certification/certify.ts:773-785 | every row of every lane has a row with its id in the report |
| CertificationVerdicts.OneRowPerId | certification/certify.ts:658-711 | and no other |
| CertificationVerdicts.TestRowSays | certification/certify.ts:427-522 | the row of a test, told by its own line and details: result and reason code for each case, whatever stands elsewhere in the lane |
| CertificationVerdicts.RowsPerLane | certification/certify.ts:560-600 | one row for each test of a lane and none besides; a lane without tests has one NOT-TESTED row under its own id, with the collapse code as its reason |
| CertificationVerdicts.CollapseSays | certification/certify.ts:523-600 | why a lane is collapsed, by priority, told by its lines, its declaration and its exit code |
| CertificationVerdicts.FailedTestIsReported | certification/certify.ts:427-711 | a failed test whose id stands nowhere else, or beside different evidence, is FAIL in the report, even from a collapsed lane |
| CertificationVerdicts.TotalsCountTests | certification/certify.ts:809-827 | the totals count tests, not rows: all test ids of the lanes, those with a sole FAIL or differing rows, those with a sole PASS, each once however often it was reported |
| CertificationVerdicts.RowsAscend | certification/certify.ts:755-785 | the rows ascend by category and, within one, by test id |
| Ordering.SortedIsSorted | certification/certify.ts:755-785 | the canonical sort permutes and leaves the sequence in order |
| Ordering.AscendingIsUnique | certification/certify.ts:755-759 | only one sequence of given rows is strictly ascending |
| WebhookEvents.WebhookEventGuard.Check | shared/webhooks/events.ts:396-424 | checks and consumes: why an event is refused, and the guard's whole memory afterwards |
| WebhookEvents.WebhookEventGuard.Prune | shared/webhooks/events.ts:427-435 | forgets exactly the nonces outside the window and counts the rest |
| WebhookEvents.VerifyWebhook | shared/webhooks/events.ts:287-360 | authenticates, then asks the guard, last of all; succeeds exactly on what the sender signed, in time and new to the guard; the documentation puts the nonce check before the body hash |
| WebhookEvents.AuthenticatedIff | shared/webhooks/events.ts:287-360 | authentication passes exactly what the sender signed, unchanged and within five minutes of its time |
| WebhookEvents.RefusalCodes | shared/webhooks/events.ts:287-360 | why it turns a presentation away: the code of the first failing check |
| WebhookOrdering.ExactlyOnceInOrder | shared/webhooks/events.ts:384-424 | under loss, repetition, reordering and re-signing, the events accepted on a stream are a contiguous slice of the sender's in its order, and no event id is accepted twice |
| WebhookOrdering.RefusalForgetsNothing | shared/webhooks/events.ts:396-424 | a refused presentation changes neither the event ids nor any stream's cursor; an accepted one consumes its id and moves its cursor |
| WebhookOrdering.NonceIsBurnt | shared/webhooks/events.ts:396-435 | with a clock that never runs back a nonce is accepted again only after its window |
| WebhookOrdering.NonceIsBurntIffAccepted | shared/webhooks/events.ts:396-424 | a nonce not remembered yet is remembered after an arrival exactly when that arrival was accepted |
| WebhookOrdering.RefusedNonceIsTakenAgain | shared/webhooks/events.ts:379-424 | a run in which an event is refused as out of order and another is accepted at the same time under the same nonce |
| WebhookDelivery.WebhookDeliveryService.DeliverEvent | shared/webhooks/delivery.ts:125-225 | the retry loop: its last attempt is the first that was no clean failure or the last the limit allowed, and decides outcome, ledger and dead letter |
| WebhookDelivery.RetryDiscipline | shared/webhooks/delivery.ts:125-225 | at most min(maxAttempts, 6) attempts, repeats only after clean failures, DELIVERED exactly when the last was acknowledged, one dead letter exactly when the result says so |
| WebhookDelivery.DeliveryEnds | shared/webhooks/delivery.ts:125-225 | how a delivery ends, told by what the transport reported: through attempts certainly lost to the first other one or the limit, with the log, ledger and dead letter of each case |
| WebhookDelivery.AcknowledgedOnce | shared/webhooks/delivery.ts:125-165 | over any run an event is acknowledged at most once and nothing of it is sent afterwards |
| WebhookDelivery.WebhookDeliveryService.ClassifyFailure | shared/sdk/retries.ts:35-61 | a failed attempt is tried again exactly when it is clean and neither maxAttempts nor the five-step schedule is used up |
| RateLimiter.TokenBucketRateLimiter.Check | patches/lib/rateLimit.ts:33-46 | one check: allowed exactly with a whole token, and what remains |
| RateLimiter.WindowIsBounded | patches/lib/rateLimit.ts:33-46 | after any history and whoever else is checked, a client gets at most capacity + refillPerSecond * seconds checks through in any window |
| RateLimiter.RetryAfterIsExact | patches/lib/rateLimit.ts:38-41 | a refused client is let through exactly when it has waited the returned retryAfterMs |
| RateLimiter.ClockMustNotRunBack | patches/lib/rateLimit.ts:34-37 | one step back of the clock buys a token again, which is why the bound assumes a monotone clock |

## Left out

- HTTP plumbing: headers, body reading, environment parsing, response rendering, the OpenAPI
  documents and scripts; configuration errors answered before any state is touched.
- Text screening by regular expressions, at ARMA's envelope builder and at the canonical validator:
  what it objects to is a parameter.
- Hashes, MACs and timing-safe comparison as byte computations; the hash chain of a transfer is kept
  as the list of events it hashes.
- Time stamps that are only stored (created, updated, bound at), audit details and their allow-lists,
  and the audit texts of the partner server beyond their code.
- Lower-casing of field names is modelled for Latin letters only.
- ArmaTransfers.ArmaTransferService.ResolveReconciliation: `noteLength` stands for the length of the
  note, whose text is not kept.
- The ARMA activation store's tables of attempts, receipts, idempotency rows and audit events
  (`patches/arma/armaStore.ts`): the service writes them and never reads them back, and none of its
  writes can fail, so its transactions never roll back.
- Nested transactions of the stores: no modelled operation nests them.
- The partner server's discovery, entitlement, event and audit listings, credential rotation, and the
  downstream service's own record of what was enqueued (a create retried after a rolled-back
  transaction is enqueued again under another id).
- The token bucket behind the partner server's rate limit: its answer is a parameter there and is
  modelled by itself in `RateLimiter.dfy`; IEEE rounding is not modelled.
- The sleep times between attempts of the partner client, which change nothing but time.
- WebhookDelivery.WebhookDeliveryService.DeliverEvent: delivery ids, nonces and signing of each
  attempt are not modelled; a non-positive `maxAttempts` is refused at construction in the source and
  excluded by the constructor's precondition here.
- The circuit breaker of `shared/sdk/retries.ts`, which the delivery loop does not use.
- The line classifier of the TAP parser (its regular expressions and unescaping), rows that arrive as
  data, the checks of a report's JSON shape, the HTML rendering and the leak sweep.
- The AI governance guards, partner registry, health, version and correlation modules and the
  simulators: straight-line checks and fixed scenario tables.
