/** The flow that records the decision on a pending loan: it finds the loan
    in the vault, copies it with the decision fields overridden, and spends
    the old version to produce the new one. */
module LoanApproveFlow {
  import opened CordaTypes
  import opened LoanStates
  import opened Ledger
  import CashInContract
  import LoanContract
  import KycContract
  import opened ContractVerification
  import opened TxBuilder
  import opened FlowEvents

  /** The arguments the initiating flow is constructed with. */
  datatype Initiator = Initiator(
    loanId: Uuid,
    approve: bool,
    remarks: NullableString,
    creditScore: NullableString)

  const NotFoundMessage := "Loan Not Found, wa nakitan"
  const IouMessage := "This must be an IOU transaction."

  /** A vault entry holding a loan whose linear id carries the UUID. */
  predicate IsLoan(e: StateAndRef, loanId: Uuid)
  {
    e.state.data.Loan? && e.state.data.loan.linearId.id == loanId
  }

  /** The stream `filter` and `findAny` over the vault: the first matching
      entry; several matches are not an error. */
  function FindLoan(vault: seq<StateAndRef>, loanId: Uuid): (r: Option<StateAndRef>)
    ensures r.Some? <==> exists i :: 0 <= i < |vault| && IsLoan(vault[i], loanId)
    ensures r.Some? ==> r.value in vault && IsLoan(r.value, loanId)
  {
    if vault == [] then None
    else if IsLoan(vault[0], loanId) then Some(vault[0])
    else
      var r := FindLoan(vault[1..], loanId);
      assert forall i :: 1 <= i < |vault| ==> vault[i] == vault[1..][i - 1];
      r
  }

  /** The copy with overrides: the decision flag, the date of the decision
      (the other date becomes null), the remarks and the credit score. */
  function Decide(input: LoanState, flow: Initiator, now: string): LoanState
  {
    input.(approved := flow.approve,
           dateApproved := if flow.approve then Some(now) else None,
           dateRejected := if !flow.approve then Some(now) else None,
           remarks := flow.remarks,
           creditScore := flow.creditScore)
  }

  /** Exactly one of the two decision dates is set, the one the flag picks;
      the flag, remarks and score come from the arguments; and putting back
      the five overridden fields gives the input again, so the linear id,
      the parties and every other field are carried over. */
  lemma DecisionCopy(input: LoanState, flow: Initiator, now: string)
    ensures var out := Decide(input, flow, now);
      && (out.dateApproved.Some? <==> flow.approve)
      && (out.dateRejected.Some? <==> !flow.approve)
      && (out.dateApproved == Some(now) || out.dateRejected == Some(now))
      && out.approved == flow.approve && out.remarks == flow.remarks && out.creditScore == flow.creditScore
      && out.linearId == input.linearId && out.sender == input.sender && out.receiver == input.receiver
      && out.(approved := input.approved, dateApproved := input.dateApproved, dateRejected := input.dateRejected,
              remarks := input.remarks, creditScore := input.creditScore) == input
  {
  }

  /** The transaction the builder holds when the flow verifies it. The
      command is `Request`, not `Approve`. */
  function Proposal(flow: Initiator, found: StateAndRef, now: string, notary: Party): LedgerTransaction
    requires found.state.data.Loan?
  {
    var s := Decide(found.state.data.loan, flow, now);
    LedgerTransaction([found], [TransactionState(Loan(s), LoanContract.ID, notary)],
                      [Command(LoanRequest, [s.sender.owningKey, s.receiver.owningKey])], notary)
  }

  /** One input (the loan found), one output (its decided copy, with the same
      linear id, under the loan contract) and one `Request` command signed by
      exactly the participants' owning keys. */
  lemma ProposalShape(flow: Initiator, found: StateAndRef, now: string, notary: Party)
    requires found.state.data.Loan?
    ensures var tx := Proposal(flow, found, now, notary);
      && tx.inputs == [found]
      && |tx.outputs| == 1 && tx.outputs[0].data == Loan(Decide(found.state.data.loan, flow, now))
      && tx.outputs[0].contract == LoanContract.ID == ContractOf(tx.outputs[0].data)
      && tx.outputs[0].data.loan.linearId == found.state.data.loan.linearId
      && tx.commands == [Command(LoanRequest, OwningKeys(Participants(tx.outputs[0].data.loan)))]
  {
    var s := Decide(found.state.data.loan, flow, now);
    assert OwningKeys(Participants(s)) == [s.sender.owningKey, s.receiver.owningKey];
  }

  /** The proposal verifies exactly when the input was stored under one of
      the application's contracts; the decision fields play no part, because
      the `Request` group of the loan contract runs instead of `Approve`. */
  lemma ProposalVerdict(flow: Initiator, found: StateAndRef, now: string, notary: Party)
    requires found.state.data.Loan?
    ensures LedgerVerify(Proposal(flow, found, now, notary)) == Ok <==>
      found.state.contract in {CashInContract.ID, LoanContract.ID, KycContract.ID}
    ensures found.state.contract !in {CashInContract.ID, LoanContract.ID, KycContract.ID} ==>
      LedgerVerify(Proposal(flow, found, now, notary)) == Reject(UnknownContract(found.state.contract))
  {
    var tx := Proposal(flow, found, now, notary);
    var names := ContractNames(tx);
    assert names == [found.state.contract, LoanContract.ID];
    VerifyContractsAllOk(names, tx);
  }

  /** The same transaction with the `Approve` command the flow evidently
      meant to attach. */
  function WithApproveCommand(tx: LedgerTransaction): LedgerTransaction
    requires tx.commands != []
  {
    tx.(commands := [Command(LoanApprove, tx.commands[0].signers)])
  }

  /** The decided copy always carries the date its flag asks for, so the
      `Approve` rules would accept it exactly when the remarks are non-empty. */
  lemma ApproveRulesOnDecision(input: LoanState, flow: Initiator, now: string)
    ensures LoanContract.ApproveRules(Decide(input, flow, now)) == Ok <==> NonEmpty(flow.remarks)
    ensures flow.remarks == Some("") ==>
      LoanContract.ApproveRules(Decide(input, flow, now)) == Reject(Failed(LoanContract.RemarksEmptyMessage))
  {
  }

  /** The loan contract accepts the proposal as built whatever the remarks,
      while with the `Approve` command it would run the rules of
      ApproveRulesOnDecision on the decided copy. */
  lemma ApproveRulesBypassed(flow: Initiator, found: StateAndRef, now: string, notary: Party)
    requires found.state.data.Loan?
    ensures LoanContract.Verify(Proposal(flow, found, now, notary)) == Ok
    ensures LoanContract.Verify(WithApproveCommand(Proposal(flow, found, now, notary)))
         == LoanContract.ApproveRules(Decide(found.state.data.loan, flow, now))
  {
  }

  /** The acceptor's `checkTransaction`: the first output must be a loan. */
  function CheckTransaction(tx: LedgerTransaction): (r: Verdict)
    ensures r == Ok <==> tx.outputs != [] && tx.outputs[0].data.Loan?
    ensures tx.outputs != [] && !tx.outputs[0].data.Loan? ==> r == Reject(Failed(IouMessage))
  {
    if tx.outputs == [] then Reject(MissingOutput)
    else if tx.outputs[0].data.Loan? then Ok
    else Reject(Failed(IouMessage))
  }

  /** The counterparty's check accepts every proposal this flow builds. */
  lemma AcceptorAcceptsProposal(flow: Initiator, found: StateAndRef, now: string, notary: Party)
    requires found.state.data.Loan?
    ensures CheckTransaction(Proposal(flow, found, now, notary)) == Ok
  {
  }

  /** `LoanApproveInitiator.call`: find the loan (failing before anything is
      built), pick the first notary, build the proposal, verify it locally,
      then sign, open a session with the loan's receiver, collect its
      signature and finalise. */
  method Call(flow: Initiator, vault: seq<StateAndRef>, ourIdentity: Party, notaries: seq<Party>, now: string)
    returns (r: FlowResult, ghost trace: seq<Event>)
    ensures FindLoan(vault, flow.loanId).None? ==> r == Aborted(LoanNotFound(NotFoundMessage))
    ensures FindLoan(vault, flow.loanId).Some? && notaries == [] ==> r == Aborted(NoNotary)
    ensures FindLoan(vault, flow.loanId).Some? && notaries != [] ==>
      var found := FindLoan(vault, flow.loanId).value;
      var tx := Proposal(flow, found, now, notaries[0]);
      && (r.Recorded? <==> LedgerVerify(tx) == Ok)
      && (r.Recorded? ==> r.tx == tx)
      && (r.Aborted? ==> r == Aborted(VerificationFailed(LedgerVerify(tx).reason)))
    ensures r.Recorded? ==>
      trace == CompletedRun(ourIdentity.owningKey, FindLoan(vault, flow.loanId).value.state.data.loan.receiver)
    ensures r.Aborted? ==> trace == []
  {
    var lookup := FindLoan(vault, flow.loanId);
    if lookup.None? {
      return Aborted(LoanNotFound(NotFoundMessage)), [];
    }
    var found := lookup.value;
    var input := found.state.data.loan;
    if notaries == [] {
      return Aborted(NoNotary), [];
    }
    var notary := notaries[0];
    var state := Decide(input, flow, now);
    var command := Command(LoanRequest, [state.sender.owningKey, state.receiver.owningKey]);
    var builder := new TransactionBuilder(notary);
    builder.AddInputState(found);
    builder.AddOutputState(Loan(state), LoanContract.ID);
    builder.AddCommand(command);
    var tx := builder.ToLedgerTransaction();
    assert tx == Proposal(flow, found, now, notary);
    var verdict := LedgerVerify(tx);
    if verdict.Reject? {
      return Aborted(VerificationFailed(verdict.reason)), [];
    }
    trace := [LocallyVerified];
    trace := trace + [SignedInitial(ourIdentity.owningKey)];
    var peer := state.receiver;
    trace := trace + [SessionOpened(peer)];
    trace := trace + [SignaturesCollected(peer)];
    trace := trace + [Finalised(peer)];
    r := Recorded(tx);
  }
}
