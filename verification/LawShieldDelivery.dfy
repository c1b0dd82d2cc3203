/**
 That an exchange without faults ends accepted on both sides: the counterpart of all that says what
 cannot happen.
 */
module LawShieldDelivery {
  import opened Wrappers
  import A = ArmaTransfers
  import AA = ArmaAnswers
  import AS = ArmaSends
  import D = LawShieldDecisions
  import G = LawShieldGateway
  import LA = LawShieldAdmissions
  import P = LawShieldProcessor
  import RV = ReceiptVerifier
  import S = LawShieldStore
  import opened LawShieldProtocol

  /** The gateway's receipt as it arrives when nothing happens to it. */
  function Carrying(r: RV.GatewayReceipt): RV.ReceiptWire {
    RV.ReceiptWire(true, "arma-lawshield.v1", r.receiptId, true, true, true, Some(r))
  }

  /** What the processor accepts, and says so about this very request, the gateway signs. */
  lemma AcceptanceIsSigned(o: A.Outbound, reply: P.Reply)
    requires Sendable(o) && reply.Acceptance? && reply.receiptId != ""
    requires reply.transferId == o.transferId && reply.payloadHash == o.payloadHash
    ensures var response := G.Respond(EnvelopeOf(o), G.Answered(true, Some(reply)));
            response.Signed? && response.receipt.receiptId == reply.receiptId
            && AA.Confirms(Carrying(response.receipt), o)
  {
  }

  /** The processor's decision on the request, when nothing speaks against it. */
  predicate Welcome(s: S.Tables, step: D.Step, d: S.Directory, o: A.Outbound)
    requires Sendable(o)
  {
    && LA.Consults(d, step) && !step.disabled && LA.FirstDelivery(s, step.request, step.now)
    && step.request.body.envelope == EnvelopeOf(o) && LA.MayDisclose(d, EnvelopeOf(o))
    && o.transferId !in s.transfers && LA.WritesSucceed(step.fp)
  }

  lemma WelcomeIsAccepted(s: S.Tables, step: D.Step, d: S.Directory, o: A.Outbound)
    requires D.FourTables(s) && Sendable(o) && Welcome(s, step, d, o)
    ensures var out := D.Apply(s, step).1;
            && D.Accepts(out) && out.reply.receiptId == P.ReceiptIdFor(o.transferId)
            && out.reply.transferId == o.transferId && out.reply.payloadHash == o.payloadHash
  {
    LA.AcceptedIff(s, step, d);
    LA.FirstDeliveryDecides(s, step);
    assert D.Accepts(D.Apply(s, step).1);
    D.AcceptanceIsDurable(s, step);
  }

  /**
   A send that reaches a processor with nothing against it, and whose answer arrives as it was given,
   ends ACCEPTED at ARMA under the processor's receipt, with the transfer held as accepted there.
   */
  lemma UndisturbedEndsAccepted(y: System, hash: AS.Hash, o: A.Outbound, step: D.Step, d: S.Directory, at: int)
    requires Ok(y, hash) && o in y.side.calls && Sendable(o) && Welcome(y.tables, step, d, o)
    ensures var (tables, out) := D.Apply(y.tables, step);
            && D.Accepts(out)
            && var response := G.Respond(EnvelopeOf(o), G.Answered(true, Some(out.reply)));
               && response.Signed?
               && var side := AS.Moved(y.side, AS.SettleSend(o, A.Receipt(Carrying(response.receipt)), at), hash);
                  && o.transferId in side.arma.transfers && side.arma.transfers[o.transferId].status.Accepted?
                  && side.arma.transfers[o.transferId].receiptId == Some(P.ReceiptIdFor(o.transferId))
                  && Held(tables, o.transferId, o.payloadHash, P.ReceiptIdFor(o.transferId))
  {
    WelcomeIsAccepted(y.tables, step, d, o);
    var reply := D.Apply(y.tables, step).1.reply;
    NewReplyOk(y.tables, step);
    AcceptanceIsSigned(o, reply);
    var receipt := G.Respond(EnvelopeOf(o), G.Answered(true, Some(reply))).receipt;
    assert AS.CallOk(y.side, o);
    AA.AnswerDecides(y.side, AS.SettleSend(o, A.Receipt(Carrying(receipt)), at), hash);
  }
}
