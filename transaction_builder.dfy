/** The mutable builder the flows fill in step by step before verifying. */
module TxBuilder {
  import opened CordaTypes
  import opened Ledger

  class TransactionBuilder {
    const notary: Party
    var inputs: seq<StateAndRef>
    var outputs: seq<TransactionState>
    var commands: seq<Command>

    /** `new TransactionBuilder(notary)`: an empty proposal. */
    constructor(notary: Party)
      ensures this.notary == notary
      ensures inputs == [] && outputs == [] && commands == []
    {
      this.notary := notary;
      inputs := [];
      outputs := [];
      commands := [];
    }

    /** `addInputState`: consume one more state. */
    method AddInputState(s: StateAndRef)
      modifies this
      ensures inputs == old(inputs) + [s]
      ensures outputs == old(outputs) && commands == old(commands)
    {
      inputs := inputs + [s];
    }

    /** `addOutputState(state, contract)`: produce one more state under the
        named contract and the builder's notary. */
    method AddOutputState(data: ContractState, contract: string)
      modifies this
      ensures outputs == old(outputs) + [TransactionState(data, contract, notary)]
      ensures inputs == old(inputs) && commands == old(commands)
    {
      outputs := outputs + [TransactionState(data, contract, notary)];
    }

    /** `addCommand`: attach one more command. */
    method AddCommand(c: Command)
      modifies this
      ensures commands == old(commands) + [c]
      ensures inputs == old(inputs) && outputs == old(outputs)
    {
      commands := commands + [c];
    }

    /** The transaction the builder describes so far. */
    function ToLedgerTransaction(): (tx: LedgerTransaction)
      reads this
      ensures tx.inputs == inputs && tx.outputs == outputs && tx.commands == commands
      ensures tx.notary == notary
    {
      LedgerTransaction(inputs, outputs, commands, notary)
    }
  }
}
