/** The flow in which a wallet holder asks a lender for a loan, and the
    lender's check before it signs. */
module LoanRequestFlow {
  import opened CordaTypes
  import opened LoanStates
  import opened Ledger
  import LoanContract
  import opened ContractVerification
  import opened TxBuilder
  import opened FlowEvents

  /** The arguments the initiating flow is constructed with; `otherParty` is
      the lender. */
  datatype Initiator = Initiator(
    walletAccountId: Long,
    purpose: NullableString,
    amount: NullableString,
    paymentTerms: NullableString,
    occupation: NullableString,
    grossIncome: NullableString,
    kycId: UniqueIdentifier,
    otherParty: Party)

  const IouMessage := "This must be an IOU transaction."

  /** The pending loan: a fresh linear id, the request arguments, not
      approved, requested now, and no decision, remarks, score or payment. */
  function NewState(flow: Initiator, ourIdentity: Party, freshId: UniqueIdentifier, now: string): LoanState
  {
    LoanState(freshId, flow.walletAccountId, flow.purpose, flow.amount, flow.paymentTerms, flow.occupation,
              flow.grossIncome, flow.kycId, false, None, Some(now), None, None, None, None, None,
              ourIdentity, flow.otherParty)
  }

  /** `Request`, to be signed by the sender's and the receiver's keys. */
  function RequestCommand(s: LoanState): Command
  {
    Command(LoanRequest, [s.sender.owningKey, s.receiver.owningKey])
  }

  /** The transaction the builder holds when the flow verifies it. */
  function Proposal(flow: Initiator, ourIdentity: Party, freshId: UniqueIdentifier, now: string, notary: Party): LedgerTransaction
  {
    var s := NewState(flow, ourIdentity, freshId, now);
    LedgerTransaction([], [TransactionState(Loan(s), LoanContract.ID, notary)], [RequestCommand(s)], notary)
  }

  /** No inputs; one output under the contract loans belong to, holding a
      pending loan that carries the request arguments; one `Request` command
      signed by exactly the participants' owning keys. */
  lemma ProposalShape(flow: Initiator, ourIdentity: Party, freshId: UniqueIdentifier, now: string, notary: Party)
    ensures var tx := Proposal(flow, ourIdentity, freshId, now, notary);
      && tx.inputs == []
      && |tx.outputs| == 1 && tx.outputs[0].data.Loan?
      && tx.outputs[0].contract == LoanContract.ID == ContractOf(tx.outputs[0].data)
      && var s := tx.outputs[0].data.loan;
         && s.linearId == freshId && s.sender == ourIdentity && s.receiver == flow.otherParty
         && s.walletAccountId == flow.walletAccountId && s.purpose == flow.purpose && s.amount == flow.amount
         && s.paymentTerms == flow.paymentTerms && s.occupation == flow.occupation
         && s.grossIncome == flow.grossIncome && s.kycId == flow.kycId
         && !s.approved && s.dateRequested == Some(now)
         && s.dateApproved.None? && s.dateRejected.None? && s.remarks.None? && s.creditScore.None?
         && s.paidRemarks.None? && s.datePaid.None?
         && tx.commands == [Command(LoanRequest, OwningKeys(Participants(s)))]
  {
    var s := NewState(flow, ourIdentity, freshId, now);
    assert OwningKeys(Participants(s)) == [s.sender.owningKey, s.receiver.owningKey];
  }

  /** Every proposal verifies, through the `Request` group of the loan
      contract, whatever the arguments (even with the same party on both
      sides). */
  lemma ProposalVerifies(flow: Initiator, ourIdentity: Party, freshId: UniqueIdentifier, now: string, notary: Party)
    ensures LedgerVerify(Proposal(flow, ourIdentity, freshId, now, notary)) == Ok
  {
    SingleContractVerdict(Proposal(flow, ourIdentity, freshId, now, notary), LoanContract.ID);
  }

  /** The acceptor's `checkTransaction`: the first output must be a loan. */
  function CheckTransaction(tx: LedgerTransaction): (r: Verdict)
    ensures r == Ok <==> tx.outputs != [] && tx.outputs[0].data.Loan?
    ensures tx.outputs != [] && !tx.outputs[0].data.Loan? ==> r == Reject(Failed(IouMessage))
  {
    if tx.outputs == [] then Reject(MissingOutput)
    else if tx.outputs[0].data.Loan? then Ok
    else Reject(Failed(IouMessage))
  }

  /** The lender's check accepts every proposal this flow builds. */
  lemma AcceptorAcceptsProposal(flow: Initiator, ourIdentity: Party, freshId: UniqueIdentifier, now: string, notary: Party)
    ensures CheckTransaction(Proposal(flow, ourIdentity, freshId, now, notary)) == Ok
  {
  }

  /** `LoanRequestInitiator.call`: pick the first notary, build the proposal,
      verify it locally (which cannot fail), then sign, open a session with
      the lender, collect its signature and finalise. */
  method Call(flow: Initiator, ourIdentity: Party, notaries: seq<Party>, freshId: UniqueIdentifier, now: string)
    returns (r: FlowResult, ghost trace: seq<Event>)
    ensures notaries == [] ==> r == Aborted(NoNotary)
    ensures notaries != [] ==> r == Recorded(Proposal(flow, ourIdentity, freshId, now, notaries[0]))
    ensures r.Recorded? ==> trace == CompletedRun(ourIdentity.owningKey, flow.otherParty)
    ensures r.Aborted? ==> trace == []
  {
    if notaries == [] {
      return Aborted(NoNotary), [];
    }
    var notary := notaries[0];
    var state := NewState(flow, ourIdentity, freshId, now);
    var command := RequestCommand(state);
    var builder := new TransactionBuilder(notary);
    builder.AddOutputState(Loan(state), LoanContract.ID);
    builder.AddCommand(command);
    var tx := builder.ToLedgerTransaction();
    assert tx == Proposal(flow, ourIdentity, freshId, now, notary);
    ProposalVerifies(flow, ourIdentity, freshId, now, notary);
    var verdict := LedgerVerify(tx);
    assert verdict == Ok;
    trace := [LocallyVerified];
    trace := trace + [SignedInitial(ourIdentity.owningKey)];
    var peer := state.receiver;
    trace := trace + [SessionOpened(peer)];
    trace := trace + [SignaturesCollected(peer)];
    trace := trace + [Finalised(peer)];
    r := Recorded(tx);
  }
}
