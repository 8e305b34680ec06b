/** The rules for issuing a cash-in record. Only the first command decides
    whether the rules run; under `Send` they run in a fixed order and the
    first one that fails is the one reported. */
module CashInContract {
  import opened CordaTypes
  import opened CashInStates
  import opened Ledger

  const ID := "net.corda.koalanab.blockwallet.contracts.CashInContract"

  const NoInputsMessage := "No inputs should be consumed when issuing an IOU."
  const SameEntityMessage := "The sender and the receiver cannot be the same entity."
  const SignersMessage := "All of the participants must be signers."
  const AffiliateEmptyMessage := "No inputs should be consumed when affiliate account is empty"
  const WalletEmptyMessage := "No inputs should be consumed when wallet account is empty"

  /** The cash-in outputs, in order (`outputsOfType(CashInState.class)`). */
  function CashInOutputs(tx: LedgerTransaction): seq<CashInState>
  {
    OutputsOfType(tx.outputs, AsCashIn)
  }

  /** The `requireThat` block: checks in source order, first failure wins.
      The amount is never looked at. */
  function SendRules(tx: LedgerTransaction, output: CashInState, command: Command): Verdict
  {
    if tx.inputs != [] then Reject(Failed(NoInputsMessage))
    else if output.sender == output.receiver then Reject(Failed(SameEntityMessage))
    else if !ContainsAll(command.signers, OwningKeys(Participants(output))) then Reject(Failed(SignersMessage))
    else if output.affiliateAccount.None? then Reject(NullDereference("affiliateAccount"))
    else if output.affiliateAccount.value == "" then Reject(Failed(AffiliateEmptyMessage))
    else if output.walletAccount.None? then Reject(NullDereference("walletAccount"))
    else if output.walletAccount.value == "" then Reject(Failed(WalletEmptyMessage))
    else Ok
  }

  /** `CashInContract.verify`. */
  function Verify(tx: LedgerTransaction): (r: Verdict)
    ensures tx.commands == [] ==> r == Reject(MissingCommand)
    ensures tx.commands != [] && tx.commands[0].value != CashInSend ==> r == Ok
    ensures r.Ok? && tx.commands != [] && tx.commands[0].value == CashInSend ==> tx.inputs == []
  {
    if tx.commands == [] then Reject(MissingCommand)
    else if tx.commands[0].value != CashInSend then Ok
    else
      var outputs := CashInOutputs(tx);
      if outputs == [] then Reject(MissingOutput)
      else
        match RequireSingleCommand(tx.commands, CashInSend)
        case None => Reject(NotSingleCommand)
        case Some(command) => SendRules(tx, outputs[0], command)
  }

  /** Under `Send`, every rule must hold: a cash-in output exists, no later
      command is also `Send`, nothing is consumed, the first cash-in output
      names two different parties whose owning keys both sign the first
      command, and both account strings are non-empty. */
  lemma SendAcceptsIff(tx: LedgerTransaction)
    requires tx.commands != [] && tx.commands[0].value == CashInSend
    ensures Verify(tx) == Ok <==>
      && (exists i :: 0 <= i < |tx.outputs| && tx.outputs[i].data.CashIn?)
      && (forall i :: 1 <= i < |tx.commands| ==> tx.commands[i].value != CashInSend)
      && tx.inputs == []
      && var output := CashInOutputs(tx)[0];
         && output.sender != output.receiver
         && output.sender.owningKey in tx.commands[0].signers
         && output.receiver.owningKey in tx.commands[0].signers
         && NonEmpty(output.affiliateAccount)
         && NonEmpty(output.walletAccount)
  {
    SingleCommandIsFirst(tx.commands, CashInSend);
    if CashInOutputs(tx) != [] {
      var output := CashInOutputs(tx)[0];
      var keys := OwningKeys(Participants(output));
      assert keys == [output.sender.owningKey, output.receiver.owningKey];
    }
  }

  /** Reaching the rule block needs a cash-in output and exactly one `Send`
      command; a missing output is reported before a duplicate command. */
  lemma SendPreconditionsOrder(tx: LedgerTransaction)
    requires tx.commands != [] && tx.commands[0].value == CashInSend
    ensures Verify(tx) == Reject(MissingOutput) <==> forall i :: 0 <= i < |tx.outputs| ==> !tx.outputs[i].data.CashIn?
    ensures Verify(tx) == Reject(NotSingleCommand) <==>
      (exists i :: 0 <= i < |tx.outputs| && tx.outputs[i].data.CashIn?) &&
      (exists i :: 1 <= i < |tx.commands| && tx.commands[i].value == CashInSend)
  {
    SingleCommandIsFirst(tx.commands, CashInSend);
  }

  /** Each message is reported exactly when every earlier rule held and its
      own rule failed. */
  lemma FirstFailureReported(tx: LedgerTransaction)
    requires tx.commands != [] && tx.commands[0].value == CashInSend
    requires CashInOutputs(tx) != []
    requires forall i :: 1 <= i < |tx.commands| ==> tx.commands[i].value != CashInSend
    ensures var output := CashInOutputs(tx)[0];
      var signed := output.sender.owningKey in tx.commands[0].signers && output.receiver.owningKey in tx.commands[0].signers;
      && (Verify(tx) == Reject(Failed(NoInputsMessage)) <==> tx.inputs != [])
      && (Verify(tx) == Reject(Failed(SameEntityMessage)) <==> tx.inputs == [] && output.sender == output.receiver)
      && (Verify(tx) == Reject(Failed(SignersMessage)) <==>
            tx.inputs == [] && output.sender != output.receiver && !signed)
      && (Verify(tx) == Reject(NullDereference("affiliateAccount")) <==>
            tx.inputs == [] && output.sender != output.receiver && signed && output.affiliateAccount.None?)
      && (Verify(tx) == Reject(Failed(AffiliateEmptyMessage)) <==>
            tx.inputs == [] && output.sender != output.receiver && signed && output.affiliateAccount == Some(""))
      && (Verify(tx) == Reject(NullDereference("walletAccount")) <==>
            tx.inputs == [] && output.sender != output.receiver && signed && NonEmpty(output.affiliateAccount)
            && output.walletAccount.None?)
      && (Verify(tx) == Reject(Failed(WalletEmptyMessage)) <==>
            tx.inputs == [] && output.sender != output.receiver && signed && NonEmpty(output.affiliateAccount)
            && output.walletAccount == Some(""))
  {
    SingleCommandIsFirst(tx.commands, CashInSend);
    var output := CashInOutputs(tx)[0];
    assert OwningKeys(Participants(output)) == [output.sender.owningKey, output.receiver.owningKey];
  }

  /** The amount of a cash-in output never changes the verdict. */
  lemma AmountNeverChecked(tx: LedgerTransaction, output: CashInState, command: Command, amount: NullableString)
    ensures SendRules(tx, output.(amount := amount), command) == SendRules(tx, output, command)
  {
    assert Participants(output.(amount := amount)) == Participants(output);
  }
}
