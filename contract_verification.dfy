/** Verification of a whole transaction: the contract named by each input
    and each output runs against the transaction, and the transaction is
    valid when none of them throws. */
module ContractVerification {
  import opened CordaTypes
  import opened Ledger
  import CashInContract
  import LoanContract
  import KycContract

  /** The contract each state type belongs to (`@BelongsToContract`). */
  function ContractOf(s: ContractState): (id: string)
    ensures id == LoanContract.ID <==> s.Loan?
    ensures id == CashInContract.ID <==> s.CashIn?
    ensures id == KycContract.ID <==> s.Kyc?
  {
    match s
    case Loan(_) => LoanContract.ID
    case CashIn(_) => CashInContract.ID
    case Kyc(_) => KycContract.ID
  }

  /** Runs the contract with the given name; a name that is none of the
      three contracts cannot be loaded. */
  function RunContract(name: string, tx: LedgerTransaction): (r: Verdict)
    ensures r.Reject? && r.reason.UnknownContract? ==> r.reason.name == name
  {
    if name == CashInContract.ID then CashInContract.Verify(tx)
    else if name == LoanContract.ID then LoanContract.Verify(tx)
    else if name == KycContract.ID then KycContract.Verify(tx)
    else Reject(UnknownContract(name))
  }

  /** The contract names of the inputs, then of the outputs. */
  function ContractNames(tx: LedgerTransaction): (names: seq<string>)
    ensures |names| == |tx.inputs| + |tx.outputs|
    ensures forall i :: 0 <= i < |tx.inputs| ==> names[i] == tx.inputs[i].state.contract
    ensures forall i :: 0 <= i < |tx.outputs| ==> names[|tx.inputs| + i] == tx.outputs[i].contract
  {
    seq(|tx.inputs|, i requires 0 <= i < |tx.inputs| => tx.inputs[i].state.contract)
    + seq(|tx.outputs|, i requires 0 <= i < |tx.outputs| => tx.outputs[i].contract)
  }

  /** Runs the named contracts in turn and reports the first rejection. */
  function VerifyContracts(names: seq<string>, tx: LedgerTransaction): Verdict
  {
    if names == [] then Ok
    else
      var first := RunContract(names[0], tx);
      if first.Reject? then first else VerifyContracts(names[1..], tx)
  }

  /** The transaction verifies exactly when every named contract accepts it,
      and a rejection is the verdict of the first contract that rejects. */
  lemma {:induction false} VerifyContractsAllOk(names: seq<string>, tx: LedgerTransaction)
    ensures VerifyContracts(names, tx) == Ok <==> forall i :: 0 <= i < |names| ==> RunContract(names[i], tx) == Ok
    ensures VerifyContracts(names, tx).Reject? ==>
      exists i :: 0 <= i < |names| && VerifyContracts(names, tx) == RunContract(names[i], tx)
        && forall j :: 0 <= j < i ==> RunContract(names[j], tx) == Ok
  {
    if names != [] {
      VerifyContractsAllOk(names[1..], tx);
      assert forall i :: 1 <= i < |names| ==> names[i] == names[1..][i - 1];
      if RunContract(names[0], tx).Ok? && VerifyContracts(names, tx).Reject? {
        var k :| 0 <= k < |names[1..]| && VerifyContracts(names[1..], tx) == RunContract(names[1..][k], tx)
          && forall j :: 0 <= j < k ==> RunContract(names[1..][j], tx) == Ok;
        assert forall j :: 0 <= j < k + 1 ==> RunContract(names[j], tx) == Ok by {
          forall j | 0 <= j < k + 1 ensures RunContract(names[j], tx) == Ok {
            if j > 0 { assert names[j] == names[1..][j - 1]; }
          }
        }
        assert VerifyContracts(names, tx) == RunContract(names[k + 1], tx);
      }
    }
  }

  /** `TransactionBuilder.verify` / `LedgerTransaction.verify`, restricted to
      contract execution. */
  function LedgerVerify(tx: LedgerTransaction): Verdict
  {
    VerifyContracts(ContractNames(tx), tx)
  }

  /** A transaction whose inputs and outputs all sit under one contract
      verifies exactly as that contract's `verify` says. */
  lemma {:induction false} SingleContractVerdict(tx: LedgerTransaction, name: string)
    requires forall i :: 0 <= i < |tx.inputs| ==> tx.inputs[i].state.contract == name
    requires forall i :: 0 <= i < |tx.outputs| ==> tx.outputs[i].contract == name
    requires tx.inputs != [] || tx.outputs != []
    ensures LedgerVerify(tx) == RunContract(name, tx)
  {
    var names := ContractNames(tx);
    assert forall i :: 0 <= i < |names| ==> names[i] == name by {
      forall i | 0 <= i < |names| ensures names[i] == name {
        if i >= |tx.inputs| { assert names[|tx.inputs| + (i - |tx.inputs|)] == tx.outputs[i - |tx.inputs|].contract; }
      }
    }
    VerifyContractsAllOk(names, tx);
    if RunContract(name, tx).Reject? {
      assert names[0] == name;
    }
  }
}
