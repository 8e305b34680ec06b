/** The flow that issues a cash-in record from this node to a counterparty,
    and the counterparty's check before it signs. */
module CashInWalletFlow {
  import opened CordaTypes
  import opened CashInStates
  import opened Ledger
  import CashInContract
  import opened ContractVerification
  import opened TxBuilder
  import opened FlowEvents

  /** The arguments the initiating flow is constructed with. */
  datatype Initiator = Initiator(
    affiliateAccount: NullableString,
    walletAccount: NullableString,
    amount: NullableString,
    otherParty: Party)

  const IouMessage := "This must be an IOU transaction."

  /** The record the flow issues: a fresh linear id, the arguments, this node
      as sender and the other party as receiver. */
  function NewState(flow: Initiator, ourIdentity: Party, freshId: UniqueIdentifier): CashInState
  {
    CashInState(freshId, flow.affiliateAccount, flow.walletAccount, flow.amount, ourIdentity, flow.otherParty)
  }

  /** `Send`, to be signed by the sender's and the receiver's keys. */
  function SendCommand(s: CashInState): Command
  {
    Command(CashInSend, [s.sender.owningKey, s.receiver.owningKey])
  }

  /** The transaction the builder holds when the flow verifies it. */
  function Proposal(flow: Initiator, ourIdentity: Party, freshId: UniqueIdentifier, notary: Party): LedgerTransaction
  {
    var s := NewState(flow, ourIdentity, freshId);
    LedgerTransaction([], [TransactionState(CashIn(s), CashInContract.ID, notary)], [SendCommand(s)], notary)
  }

  /** No inputs, one output holding the new record under the contract its
      type belongs to, and one `Send` command whose signers are exactly the
      participants' owning keys. */
  lemma ProposalShape(flow: Initiator, ourIdentity: Party, freshId: UniqueIdentifier, notary: Party)
    ensures var tx := Proposal(flow, ourIdentity, freshId, notary);
      && tx.inputs == []
      && |tx.outputs| == 1 && tx.outputs[0].data.CashIn?
      && tx.outputs[0].contract == CashInContract.ID == ContractOf(tx.outputs[0].data)
      && var s := tx.outputs[0].data.cashIn;
         && s.linearId == freshId && s.sender == ourIdentity && s.receiver == flow.otherParty
         && s.affiliateAccount == flow.affiliateAccount && s.walletAccount == flow.walletAccount
         && s.amount == flow.amount
         && tx.commands == [Command(CashInSend, OwningKeys(Participants(s)))]
  {
    var s := NewState(flow, ourIdentity, freshId);
    assert OwningKeys(Participants(s)) == [s.sender.owningKey, s.receiver.owningKey];
  }

  /** The proposal verifies exactly when the two parties differ and both
      account strings are non-empty; otherwise the first failing rule of the
      cash-in contract is the reason. The signer rule always holds. */
  lemma ProposalVerdict(flow: Initiator, ourIdentity: Party, freshId: UniqueIdentifier, notary: Party)
    ensures var tx := Proposal(flow, ourIdentity, freshId, notary);
      && (LedgerVerify(tx) == Ok <==>
            ourIdentity != flow.otherParty && NonEmpty(flow.affiliateAccount) && NonEmpty(flow.walletAccount))
      && (ourIdentity == flow.otherParty ==> LedgerVerify(tx) == Reject(Failed(CashInContract.SameEntityMessage)))
      && (LedgerVerify(tx) != Reject(Failed(CashInContract.SignersMessage)))
  {
    var tx := Proposal(flow, ourIdentity, freshId, notary);
    SingleContractVerdict(tx, CashInContract.ID);
    CashInContract.SendAcceptsIff(tx);
    CashInContract.FirstFailureReported(tx);
  }

  /** The amount argument never changes whether or why the proposal is
      rejected. */
  lemma AmountNeverChecked(flow: Initiator, amount: NullableString, ourIdentity: Party, freshId: UniqueIdentifier, notary: Party)
    ensures LedgerVerify(Proposal(flow.(amount := amount), ourIdentity, freshId, notary))
         == LedgerVerify(Proposal(flow, ourIdentity, freshId, notary))
  {
    var tx1 := Proposal(flow.(amount := amount), ourIdentity, freshId, notary);
    var tx2 := Proposal(flow, ourIdentity, freshId, notary);
    SingleContractVerdict(tx1, CashInContract.ID);
    SingleContractVerdict(tx2, CashInContract.ID);
    var s := NewState(flow, ourIdentity, freshId);
    CashInContract.AmountNeverChecked(tx2, s, SendCommand(s), amount);
  }

  /** The acceptor's `checkTransaction`: the first output must be a cash-in
      record (the amount cap is not live). */
  function CheckTransaction(tx: LedgerTransaction): (r: Verdict)
    ensures r == Ok <==> tx.outputs != [] && tx.outputs[0].data.CashIn?
    ensures tx.outputs != [] && !tx.outputs[0].data.CashIn? ==> r == Reject(Failed(IouMessage))
  {
    if tx.outputs == [] then Reject(MissingOutput)
    else if tx.outputs[0].data.CashIn? then Ok
    else Reject(Failed(IouMessage))
  }

  /** The counterparty's check accepts every proposal this flow builds. */
  lemma AcceptorAcceptsProposal(flow: Initiator, ourIdentity: Party, freshId: UniqueIdentifier, notary: Party)
    ensures CheckTransaction(Proposal(flow, ourIdentity, freshId, notary)) == Ok
  {
  }

  /** `CashInWalletInitiator.call`: pick the first notary, build the
      proposal, verify it locally, then sign, open a session with the
      receiver, collect its signature and finalise. A local failure stops the
      flow before any counterparty is contacted. */
  method Call(flow: Initiator, ourIdentity: Party, notaries: seq<Party>, freshId: UniqueIdentifier)
    returns (r: FlowResult, ghost trace: seq<Event>)
    ensures notaries == [] ==> r == Aborted(NoNotary)
    ensures notaries != [] ==>
      var tx := Proposal(flow, ourIdentity, freshId, notaries[0]);
      && (r.Recorded? <==> ourIdentity != flow.otherParty && NonEmpty(flow.affiliateAccount) && NonEmpty(flow.walletAccount))
      && (r.Recorded? ==> r.tx == tx)
      && (r.Aborted? ==> r == Aborted(VerificationFailed(LedgerVerify(tx).reason)))
    ensures r.Recorded? ==> trace == CompletedRun(ourIdentity.owningKey, flow.otherParty)
    ensures r.Aborted? ==> trace == []
  {
    if notaries == [] {
      return Aborted(NoNotary), [];
    }
    var notary := notaries[0];
    var state := NewState(flow, ourIdentity, freshId);
    var command := SendCommand(state);
    var builder := new TransactionBuilder(notary);
    builder.AddOutputState(CashIn(state), CashInContract.ID);
    builder.AddCommand(command);
    var tx := builder.ToLedgerTransaction();
    assert tx == Proposal(flow, ourIdentity, freshId, notary);
    ProposalVerdict(flow, ourIdentity, freshId, notary);
    var verdict := LedgerVerify(tx);
    if verdict.Reject? {
      return Aborted(VerificationFailed(verdict.reason)), [];
    }
    trace := [LocallyVerified];
    trace := trace + [SignedInitial(ourIdentity.owningKey)];
    var peer := state.receiver;
    trace := trace + [SessionOpened(peer)];
    trace := trace + [SignaturesCollected(peer)];
    trace := trace + [Finalised(peer)];
    r := Recorded(tx);
  }
}
