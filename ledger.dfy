/** The shape of a resolved transaction as the contracts see it, the verdict a
    contract returns, and the two platform queries the contracts use:
    `outputsOfType` and `requireSingleCommand`. */
module Ledger {
  import opened CordaTypes
  import opened LoanStates
  import opened CashInStates
  import opened KycStates

  /** The states this application defines. */
  datatype ContractState =
    | Loan(loan: LoanState)
    | CashIn(cashIn: CashInState)
    | Kyc(kyc: KYCState)

  function AsLoan(s: ContractState): Option<LoanState>
  {
    if s.Loan? then Some(s.loan) else None
  }

  function AsCashIn(s: ContractState): Option<CashInState>
  {
    if s.CashIn? then Some(s.cashIn) else None
  }

  /** The nested `Commands` classes of the three contracts. `CashInSend` and
      `KycSend` are different classes that share the simple name `Send`. */
  datatype CommandData = CashInSend | LoanRequest | LoanApprove | KycSend

  /** A command and the keys that must sign for it. */
  datatype Command = Command(value: CommandData, signers: seq<PublicKey>)

  /** An output state with the name of the contract it is attached under. */
  datatype TransactionState = TransactionState(data: ContractState, contract: string, notary: Party)

  datatype StateRef = StateRef(txhash: nat, index: nat)

  /** An unconsumed state as the vault returns it, and as an input. */
  datatype StateAndRef = StateAndRef(state: TransactionState, ref: StateRef)

  datatype LedgerTransaction = LedgerTransaction(
    inputs: seq<StateAndRef>,
    outputs: seq<TransactionState>,
    commands: seq<Command>,
    notary: Party)

  /** Why a contract throws. `Failed` is a `requireThat` clause that was false
      and carries its message; the others are the exceptions Java raises
      implicitly. */
  datatype Rejection =
    | Failed(message: string)        // IllegalArgumentException from require.using
    | MissingCommand                 // getCommands().get(0) on an empty list
    | MissingOutput                  // get(0) on an empty list of outputs
    | NotSingleCommand               // requireSingleCommand found zero or several
    | NullDereference(field: string) // a method called on a null String field
    | UnknownContract(name: string)  // no contract class under that name

  /** `verify` returns normally (`Ok`) or throws (`Reject`). */
  datatype Verdict = Ok | Reject(reason: Rejection)

  /** `outputsOfType`: the outputs whose data `select` accepts, in order. */
  function OutputsOfType<T>(outs: seq<TransactionState>, select: ContractState -> Option<T>): (r: seq<T>)
    ensures |r| <= |outs|
    ensures forall x :: x in r ==> exists i :: 0 <= i < |outs| && select(outs[i].data) == Some(x)
    ensures r != [] <==> exists i :: 0 <= i < |outs| && select(outs[i].data).Some?
  {
    if outs == [] then []
    else
      var rest := OutputsOfType(outs[1..], select);
      assert forall x :: x in rest ==> exists i :: 0 <= i < |outs| && select(outs[i].data) == Some(x) by {
        forall x | x in rest ensures exists i :: 0 <= i < |outs| && select(outs[i].data) == Some(x) {
          var j :| 0 <= j < |outs[1..]| && select(outs[1..][j].data) == Some(x);
          assert select(outs[j + 1].data) == Some(x);
        }
      }
      assert (exists i :: 1 <= i < |outs| && select(outs[i].data).Some?) ==> rest != [] by {
        if exists i :: 1 <= i < |outs| && select(outs[i].data).Some? {
          var i :| 1 <= i < |outs| && select(outs[i].data).Some?;
          assert select(outs[1..][i - 1].data).Some?;
        }
      }
      match select(outs[0].data)
      case Some(x) => [x] + rest
      case None => rest
  }

  /** `outputsOfType(..).get(0)` is the data of the first output of the type. */
  lemma {:induction false} OutputsOfTypeFirst<T>(outs: seq<TransactionState>, select: ContractState -> Option<T>, i: nat)
    requires i < |outs| && select(outs[i].data).Some?
    requires forall j :: 0 <= j < i ==> select(outs[j].data).None?
    ensures OutputsOfType(outs, select) != []
    ensures OutputsOfType(outs, select)[0] == select(outs[i].data).value
  {
    if i > 0 {
      OutputsOfTypeFirst(outs[1..], select, i - 1);
    }
  }

  /** The commands whose value is `kind`, in order. */
  function CommandsOfKind(cmds: seq<Command>, kind: CommandData): (r: seq<Command>)
    ensures |r| <= |cmds|
    ensures forall c :: c in r ==> c in cmds && c.value == kind
  {
    if cmds == [] then []
    else (if cmds[0].value == kind then [cmds[0]] else []) + CommandsOfKind(cmds[1..], kind)
  }

  /** No command of the kind is selected exactly when none has that value. */
  lemma {:induction false} CommandsOfKindEmpty(cmds: seq<Command>, kind: CommandData)
    ensures CommandsOfKind(cmds, kind) == [] <==> forall i :: 0 <= i < |cmds| ==> cmds[i].value != kind
  {
    if cmds != [] {
      CommandsOfKindEmpty(cmds[1..], kind);
      assert forall i :: 1 <= i < |cmds| ==> cmds[i] == cmds[1..][i - 1];
    }
  }

  /** `requireSingleCommand`: the one command of the kind, or nothing when
      there are none or several. */
  function RequireSingleCommand(cmds: seq<Command>, kind: CommandData): (r: Option<Command>)
    ensures r.Some? ==> r.value in cmds && r.value.value == kind
  {
    var selected := CommandsOfKind(cmds, kind);
    if |selected| == 1 then Some(selected[0]) else None
  }

  /** When the first command has the kind, requireSingleCommand succeeds
      exactly when no later command has it, and then returns the first one. */
  lemma SingleCommandIsFirst(cmds: seq<Command>, kind: CommandData)
    requires cmds != [] && cmds[0].value == kind
    ensures RequireSingleCommand(cmds, kind).Some? <==> forall i :: 1 <= i < |cmds| ==> cmds[i].value != kind
    ensures RequireSingleCommand(cmds, kind).Some? ==> RequireSingleCommand(cmds, kind).value == cmds[0]
  {
    CommandsOfKindEmpty(cmds[1..], kind);
    assert forall i :: 1 <= i < |cmds| ==> cmds[i] == cmds[1..][i - 1];
  }

  /** The owning key of each party, in order (the stream `map` of the source). */
  function OwningKeys(parties: seq<Party>): (keys: seq<PublicKey>)
    ensures |keys| == |parties|
    ensures forall i :: 0 <= i < |parties| ==> keys[i] == parties[i].owningKey
  {
    seq(|parties|, i requires 0 <= i < |parties| => parties[i].owningKey)
  }

  /** `List.containsAll`: every element of `ys` occurs in `xs`. */
  predicate ContainsAll<T(==)>(xs: seq<T>, ys: seq<T>)
  {
    forall y :: y in ys ==> y in xs
  }
}
