/** The rules for loan records. Only the first command decides which group
    runs: `Request` needs a loan output and nothing else, `Approve` checks
    the remarks and then the date matching the decision, and any other
    command is accepted. */
module LoanContract {
  import opened CordaTypes
  import opened LoanStates
  import opened Ledger

  const ID := "net.corda.koalanab.blockwallet.contracts.LoanContract"

  const RemarksEmptyMessage := "No inputs should be consumed when remarks empty"
  /** Reported for a missing approval date and, unchanged, for a missing
      rejection date. */
  const DateMissingMessage := "No inputs should be consumed when approve date is null"

  /** The loan outputs, in order (`outputsOfType(LoanState.class)`). */
  function LoanOutputs(tx: LedgerTransaction): seq<LoanState>
  {
    OutputsOfType(tx.outputs, AsLoan)
  }

  /** The `requireThat` block of the `Approve` group. */
  function ApproveRules(output: LoanState): Verdict
  {
    if output.remarks.None? then Reject(NullDereference("remarks"))
    else if output.remarks.value == "" then Reject(Failed(RemarksEmptyMessage))
    else if output.approved then
      (if output.dateApproved.Some? then Ok else Reject(Failed(DateMissingMessage)))
    else
      (if output.dateRejected.Some? then Ok else Reject(Failed(DateMissingMessage)))
  }

  /** `LoanContract.verify`. */
  function Verify(tx: LedgerTransaction): (r: Verdict)
    ensures tx.commands == [] ==> r == Reject(MissingCommand)
    ensures tx.commands != [] && tx.commands[0].value !in {LoanRequest, LoanApprove} ==> r == Ok
    ensures tx.commands != [] && tx.commands[0].value == LoanRequest ==>
      (r == Ok <==> exists i :: 0 <= i < |tx.outputs| && tx.outputs[i].data.Loan?)
    ensures (&& tx.commands != []
             && tx.commands[0].value in {LoanRequest, LoanApprove}
             && (forall i :: 0 <= i < |tx.outputs| ==> !tx.outputs[i].data.Loan?)) ==>
      r == Reject(MissingOutput)
  {
    if tx.commands == [] then Reject(MissingCommand)
    else
      match tx.commands[0].value
      case LoanRequest =>
        if LoanOutputs(tx) == [] then Reject(MissingOutput) else Ok
      case LoanApprove =>
        var outputs := LoanOutputs(tx);
        if outputs == [] then Reject(MissingOutput) else ApproveRules(outputs[0])
      case _ => Ok
  }

  /** Under `Approve`, the first loan output passes exactly when its remarks
      are present and non-empty and the date matching its decision is set. */
  lemma ApproveAcceptsIff(tx: LedgerTransaction)
    requires tx.commands != [] && tx.commands[0].value == LoanApprove
    ensures Verify(tx) == Ok <==>
      && LoanOutputs(tx) != []
      && var output := LoanOutputs(tx)[0];
         && NonEmpty(output.remarks)
         && (if output.approved then output.dateApproved.Some? else output.dateRejected.Some?)
  {
  }

  /** The remarks are checked before the date: a null remarks field throws
      and an empty one is reported whatever the dates hold; the date message,
      shared by both decisions, is reported exactly when the remarks are
      non-empty and the date matching the flag is null. */
  lemma RemarksCheckedFirst(tx: LedgerTransaction)
    requires tx.commands != [] && tx.commands[0].value == LoanApprove
    requires LoanOutputs(tx) != []
    ensures LoanOutputs(tx)[0].remarks.None? ==> Verify(tx) == Reject(NullDereference("remarks"))
    ensures LoanOutputs(tx)[0].remarks == Some("") ==> Verify(tx) == Reject(Failed(RemarksEmptyMessage))
    ensures Verify(tx) == Reject(Failed(DateMissingMessage)) <==>
      && NonEmpty(LoanOutputs(tx)[0].remarks)
      && (if LoanOutputs(tx)[0].approved then LoanOutputs(tx)[0].dateApproved.None?
          else LoanOutputs(tx)[0].dateRejected.None?)
  {
  }

  /** The `Approve` group reads only the remarks, the decision flag and the
      date that matches it, all from the first loan output: inputs, linear
      ids, the other date and every other field are left unconstrained. */
  lemma {:induction false} ApproveReadsOnlyDecision(tx1: LedgerTransaction, tx2: LedgerTransaction)
    requires tx1.commands != [] && tx1.commands[0].value == LoanApprove
    requires tx2.commands != [] && tx2.commands[0].value == LoanApprove
    requires LoanOutputs(tx1) != [] && LoanOutputs(tx2) != []
    requires var o1, o2 := LoanOutputs(tx1)[0], LoanOutputs(tx2)[0];
      && o1.remarks == o2.remarks
      && o1.approved == o2.approved
      && (if o1.approved then o1.dateApproved.Some? == o2.dateApproved.Some?
          else o1.dateRejected.Some? == o2.dateRejected.Some?)
    ensures Verify(tx1) == Verify(tx2)
  {
  }
}
