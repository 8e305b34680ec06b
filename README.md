# Koala block-wallet ledger core in Dafny

A model of the ledger side of the Koala block-wallet CorDapp: the three
contracts that accept or reject a transaction (cash-in, loan, KYC), the three
immutable states they govern, and the three initiating flows that build a
transaction, verify it, sign it, collect the counterparty's signature and
finalise it, together with each counterparty's `checkTransaction`.

- Contracts are total functions from a `LedgerTransaction` to
  `Ok | Reject(reason)`. The reasons carry the exact `require.using`
  messages; the failures Java raises implicitly are explicit reasons:
  `get(0)` on an empty command or output list (`MissingCommand`,
  `MissingOutput`), `requireSingleCommand` finding zero or several
  commands (`NotSingleCommand`), a method called on a null string
  (`NullDereference`), and a contract name with no contract class
  (`UnknownContract`).
- States are datatypes. Every Java `String` field is `Option<string>`,
  with `None` for `null`. `Party` and `PublicKey` are opaque values.
- Whole-transaction verification runs the contract named by every input and
  every output and reports the first rejection (`ContractVerification`).
- Each flow's `call()` is a method that fills a `TransactionBuilder`
  object (inputs, outputs and commands are sequences that its methods
  reassign). It returns the recorded transaction or the error, and a ghost
  trace of the phases it passed through: local verify, initial signature,
  session with the receiver, signature collection, finality. "Now", the
  fresh `UniqueIdentifier`, the node's identity, the notary list and the
  vault contents are parameters.

Results across files:

- A cash-in transaction built by the flow verifies exactly when the node's
  identity differs from the other party and both account strings are
  non-empty. The signer rule always holds by construction, and the amount
  never matters.
- A loan-request transaction always verifies, through the `Request` group.
- The approve flow attaches a `Request` command, not `Approve`, so the
  `Approve` rules never run on it. The proposal verifies even with null or
  empty remarks. With an `Approve` command the same output would pass
  exactly when the remarks are non-empty, since the flow always sets the date
  that matches the decision.
- Every counterparty check accepts what its initiator builds.
- A local failure (no notary, loan not found, verification) returns before
  any session is opened.
- The approve flow opens its session with the loan's receiver, whoever runs
  it. When the lender runs it, that receiver is the lender itself.

## Model

| member | source | states |
|---|---|---|
| CashInStates.Participants | Basic/koala-blockwallet-corda/contracts/src/main/java/net/corda/koalanab/blockwallet/states/CashInState.java:29-30 | the participants are exactly the sender then the receiver, two entries even when they coincide |
| LoanStates.Participants | Basic/koala-blockwallet-corda/contracts/src/main/java/net/corda/koalanab/blockwallet/states/LoanState.java:49-50 | the participants are exactly the sender then the receiver, two entries even when they coincide |
| KycStates.Participants | Basic/koala-blockwallet-corda/contracts/src/main/java/net/corda/koalanab/blockwallet/states/KYCState.java:44-46 | the participants are exactly the sender then the receiver, two entries even when they coincide |
| ContractVerification.ContractOf | Basic/koala-blockwallet-corda/contracts/src/main/java/net/corda/koalanab/blockwallet/states/LoanState.java:17-20 | each state type belongs to its own contract (loan, cash-in and KYC states are told apart by their contract name) |
| Ledger.OutputsOfType | Basic/koala-blockwallet-corda/contracts/src/main/java/net/corda/koalanab/blockwallet/contracts/CashInContract.java:34 | the outputs of a type are drawn from the transaction's outputs, and there is one exactly when some output's data has that type |
| Ledger.OutputsOfTypeFirst | Basic/koala-blockwallet-corda/contracts/src/main/java/net/corda/koalanab/blockwallet/contracts/LoanContract.java:19 | `outputsOfType(..).get(0)` is the data of the first output of that type |
| Ledger.CommandsOfKind | Basic/koala-blockwallet-corda/contracts/src/main/java/net/corda/koalanab/blockwallet/contracts/CashInContract.java:36 | the selected commands are commands of the transaction with the requested value |
| Ledger.CommandsOfKindEmpty | Basic/koala-blockwallet-corda/contracts/src/main/java/net/corda/koalanab/blockwallet/contracts/CashInContract.java:36 | nothing is selected exactly when no command has the requested value |
| Ledger.RequireSingleCommand | Basic/koala-blockwallet-corda/contracts/src/main/java/net/corda/koalanab/blockwallet/contracts/CashInContract.java:36 | a command is returned only if it is in the transaction and has the requested value |
| Ledger.SingleCommandIsFirst | Basic/koala-blockwallet-corda/contracts/src/main/java/net/corda/koalanab/blockwallet/contracts/CashInContract.java:30-36 | when the first command is `Send`, requireSingleCommand succeeds exactly when no later command is `Send`, and then yields the first command |
| Ledger.OwningKeys | Basic/koala-blockwallet-corda/contracts/src/main/java/net/corda/koalanab/blockwallet/contracts/CashInContract.java:45 | the mapped key list has one owning key per participant, in order |
| ContractVerification.ContractNames | Basic/koala-blockwallet-corda/contracts/src/main/java/net/corda/koalanab/blockwallet/contracts/CashInContract.java:22-23 | one contract name per input and per output, inputs first |
| ContractVerification.VerifyContractsAllOk | Basic/koala-blockwallet-corda/contracts/src/main/java/net/corda/koalanab/blockwallet/contracts/CashInContract.java:22-23 | a transaction is valid exactly when every named contract accepts it; a rejection is that of the first contract that rejects |
| ContractVerification.SingleContractVerdict | Basic/koala-blockwallet-corda/contracts/src/main/java/net/corda/koalanab/blockwallet/contracts/LoanContract.java:10-14 | a transaction whose states all sit under one contract gets exactly that contract's verdict |
| CashInContract.Verify | Basic/koala-blockwallet-corda/contracts/src/main/java/net/corda/koalanab/blockwallet/contracts/CashInContract.java:25-53 | no command: rejected by `get(0)`; a first command other than `Send`: accepted unchecked; accepted under `Send` only with no inputs |
| CashInContract.SendAcceptsIff | Basic/koala-blockwallet-corda/contracts/src/main/java/net/corda/koalanab/blockwallet/contracts/CashInContract.java:34-51 | under `Send`: accepted iff a cash-in output exists, no later `Send`, no inputs, different parties, both owning keys among the signers, both accounts non-empty |
| CashInContract.SendPreconditionsOrder | Basic/koala-blockwallet-corda/contracts/src/main/java/net/corda/koalanab/blockwallet/contracts/CashInContract.java:34-36 | a missing cash-in output is reported, and only with an output present is a duplicate `Send` reported |
| CashInContract.FirstFailureReported | Basic/koala-blockwallet-corda/contracts/src/main/java/net/corda/koalanab/blockwallet/contracts/CashInContract.java:39-51 | each message (and each null dereference) is reported exactly when all earlier checks held and its own failed |
| CashInContract.AmountNeverChecked | Basic/koala-blockwallet-corda/contracts/src/main/java/net/corda/koalanab/blockwallet/contracts/CashInContract.java:47-49 | the rule block's verdict does not depend on the amount |
| LoanContract.Verify | Basic/koala-blockwallet-corda/contracts/src/main/java/net/corda/koalanab/blockwallet/contracts/LoanContract.java:14-40 | no command: rejected; a first command other than `Request`/`Approve`: accepted; under `Request`: accepted iff a loan output exists; under `Request` or `Approve` with no loan output: rejected for the missing output that `get(0)` reads |
| LoanContract.ApproveAcceptsIff | Basic/koala-blockwallet-corda/contracts/src/main/java/net/corda/koalanab/blockwallet/contracts/LoanContract.java:27-38 | under `Approve`: accepted iff a loan output exists, its remarks are non-null and non-empty, and the date matching its decision flag is set |
| LoanContract.RemarksCheckedFirst | Basic/koala-blockwallet-corda/contracts/src/main/java/net/corda/koalanab/blockwallet/contracts/LoanContract.java:32-36 | null remarks throw and empty remarks are reported whatever the dates; the shared date message is reported exactly when the remarks are non-empty and the date matching the flag is null, for either decision |
| LoanContract.ApproveReadsOnlyDecision | Basic/koala-blockwallet-corda/contracts/src/main/java/net/corda/koalanab/blockwallet/contracts/LoanContract.java:27-38 | two `Approve` transactions whose first loan outputs agree on remarks, flag and matching-date presence get the same verdict (inputs, linear ids and the other date are unconstrained) |
| KycContract.Verify | Basic/koala-blockwallet-corda/contracts/src/main/java/net/corda/koalanab/blockwallet/contracts/KYCContract.java:20-35 | every transaction is accepted, including one without commands |
| TxBuilder.TransactionBuilder.constructor | Basic/koala-blockwallet-corda/workflows/src/main/java/net/corda/koalanab/blockwallet/flows/CashInWalletFlow.java:102 | a new builder is empty and carries the chosen notary |
| TxBuilder.TransactionBuilder.AddInputState | Basic/koala-blockwallet-corda/workflows/src/main/java/net/corda/koalanab/blockwallet/flows/LoanApproveFlow.java:150 | appends one input, nothing else changes |
| TxBuilder.TransactionBuilder.AddOutputState | Basic/koala-blockwallet-corda/workflows/src/main/java/net/corda/koalanab/blockwallet/flows/LoanRequestFlow.java:142 | appends one output under the named contract and the builder's notary, nothing else changes |
| TxBuilder.TransactionBuilder.AddCommand | Basic/koala-blockwallet-corda/workflows/src/main/java/net/corda/koalanab/blockwallet/flows/LoanRequestFlow.java:144 | appends one command, nothing else changes |
| TxBuilder.TransactionBuilder.ToLedgerTransaction | Basic/koala-blockwallet-corda/workflows/src/main/java/net/corda/koalanab/blockwallet/flows/LoanRequestFlow.java:149 | the transaction verified is exactly what was added |
| CashInWalletFlow.ProposalShape | Basic/koala-blockwallet-corda/workflows/src/main/java/net/corda/koalanab/blockwallet/flows/CashInWalletFlow.java:87-104 | no inputs; one cash-in output under its own contract with a fresh id, the arguments, sender = this node, receiver = other party; one `Send` signed by exactly the participants' keys |
| CashInWalletFlow.ProposalVerdict | Basic/koala-blockwallet-corda/workflows/src/main/java/net/corda/koalanab/blockwallet/flows/CashInWalletFlow.java:98-109 | the built transaction verifies iff the parties differ and both accounts are non-empty; same party is rejected as "same entity"; the signer rule never fails |
| CashInWalletFlow.AmountNeverChecked | Basic/koala-blockwallet-corda/workflows/src/main/java/net/corda/koalanab/blockwallet/flows/CashInWalletFlow.java:87-91 | the amount argument never changes the verdict |
| CashInWalletFlow.CheckTransaction | Basic/koala-blockwallet-corda/workflows/src/main/java/net/corda/koalanab/blockwallet/flows/CashInWalletFlow.java:148-155 | the counterparty accepts iff the first output is a cash-in record; any other first output is rejected with its message |
| CashInWalletFlow.AcceptorAcceptsProposal | Basic/koala-blockwallet-corda/workflows/src/main/java/net/corda/koalanab/blockwallet/flows/CashInWalletFlow.java:148-155 | the counterparty's check accepts every proposal the initiator builds |
| CashInWalletFlow.Call | Basic/koala-blockwallet-corda/workflows/src/main/java/net/corda/koalanab/blockwallet/flows/CashInWalletFlow.java:82-127 | no notary: aborts first; otherwise records exactly the proposal iff it verifies, after verify, sign, session with the receiver, collection and finality in that order; a failed verify aborts with its reason and an empty trace |
| LoanRequestFlow.ProposalShape | Basic/koala-blockwallet-corda/workflows/src/main/java/net/corda/koalanab/blockwallet/flows/LoanRequestFlow.java:114-144 | no inputs; one pending loan under its own contract (fresh id, arguments copied, not approved, requested now, decision, remarks, score and payment fields null); one `Request` signed by exactly the participants' keys |
| LoanRequestFlow.ProposalVerifies | Basic/koala-blockwallet-corda/workflows/src/main/java/net/corda/koalanab/blockwallet/flows/LoanRequestFlow.java:137-149 | every built transaction passes verification, through the `Request` group |
| LoanRequestFlow.CheckTransaction | Basic/koala-blockwallet-corda/workflows/src/main/java/net/corda/koalanab/blockwallet/flows/LoanRequestFlow.java:188-193 | the lender accepts iff the first output is a loan |
| LoanRequestFlow.AcceptorAcceptsProposal | Basic/koala-blockwallet-corda/workflows/src/main/java/net/corda/koalanab/blockwallet/flows/LoanRequestFlow.java:188-193 | the lender's check accepts every proposal the initiator builds |
| LoanRequestFlow.Call | Basic/koala-blockwallet-corda/workflows/src/main/java/net/corda/koalanab/blockwallet/flows/LoanRequestFlow.java:105-167 | no notary: aborts; otherwise always records the proposal, after verify, sign, session with the lender, collection and finality in that order |
| LoanApproveFlow.FindLoan | Basic/koala-blockwallet-corda/workflows/src/main/java/net/corda/koalanab/blockwallet/flows/LoanApproveFlow.java:105-112 | a vault loan with the UUID is found iff one exists; the one returned is in the vault and matches |
| LoanApproveFlow.DecisionCopy | Basic/koala-blockwallet-corda/workflows/src/main/java/net/corda/koalanab/blockwallet/flows/LoanApproveFlow.java:117-141 | exactly one decision date is set, the one the flag picks; flag, remarks and score come from the arguments; every other field, the linear id and the parties are carried over |
| LoanApproveFlow.ProposalShape | Basic/koala-blockwallet-corda/workflows/src/main/java/net/corda/koalanab/blockwallet/flows/LoanApproveFlow.java:143-152 | one input (the loan found), one output (its decided copy, same linear id, loan contract), one `Request` signed by exactly the participants' keys |
| LoanApproveFlow.ProposalVerdict | Basic/koala-blockwallet-corda/workflows/src/main/java/net/corda/koalanab/blockwallet/flows/LoanApproveFlow.java:145-157 | the built transaction verifies iff the input was stored under one of the application's contracts, whatever the decision fields |
| LoanApproveFlow.ApproveRulesOnDecision | Basic/koala-blockwallet-corda/workflows/src/main/java/net/corda/koalanab/blockwallet/flows/LoanApproveFlow.java:117-141 | the decided copy would pass the loan contract's `Approve` rules exactly when the remarks are non-empty; `Some("")` remarks are rejected with the remarks message |
| LoanApproveFlow.ApproveRulesBypassed | Basic/koala-blockwallet-corda/workflows/src/main/java/net/corda/koalanab/blockwallet/flows/LoanApproveFlow.java:145-147 | the loan contract accepts the proposal as built (with the `Request` command) whatever the remarks, whereas with `Approve` its verdict would be the `Approve` rules on the decided copy |
| LoanApproveFlow.CheckTransaction | Basic/koala-blockwallet-corda/workflows/src/main/java/net/corda/koalanab/blockwallet/flows/LoanApproveFlow.java:196-201 | the counterparty accepts iff the first output is a loan |
| LoanApproveFlow.AcceptorAcceptsProposal | Basic/koala-blockwallet-corda/workflows/src/main/java/net/corda/koalanab/blockwallet/flows/LoanApproveFlow.java:196-201 | the counterparty's check accepts every proposal the initiator builds |
| LoanApproveFlow.Call | Basic/koala-blockwallet-corda/workflows/src/main/java/net/corda/koalanab/blockwallet/flows/LoanApproveFlow.java:102-175 | no matching loan: aborts with "Loan Not Found, wa nakitan" before anything else; then no notary: aborts; otherwise records exactly the proposal iff it verifies, phases in order, session with the loan's receiver |

## Left out

- CashInContract.Verify: sender and receiver are compared by value. The Java `!=` compares object references, so two distinct `Party` objects for the same party would pass there.
- LoanApproveFlow.FindLoan: returns the first match, whereas `findAny` may return any matching loan.
- CashInWalletFlow.Call, LoanRequestFlow.Call, LoanApproveFlow.Call: signature collection and finality are opaque steps that always succeed. A counterparty that declines, a notary conflict or an unavailable notary is not modelled. These steps are Corda library code (`CollectSignaturesFlow`, `SignTransactionFlow`, `FinalityFlow`, `ReceiveFinalityFlow`).
- The responders' `call()` bodies: only their `checkTransaction` is modelled. The rest is the same library code.
- Verification covers contract execution only. The platform's other checks are left out: notary consistency of inputs, attachment constraints, and the contract named on a state versus its `@BelongsToContract`.
- Signatures and keys have no cryptographic meaning. `signInitialTransaction` is only an event in the trace.
- Progress-tracker steps, `System.out.println` and the logger are observational and are left out.
- `Party` and `UniqueIdentifier` values are never null in the model. Only `String` fields and arguments may be null.
- `UniqueIdentifier` equality in Corda looks only at the UUID. The model compares both parts, and the vault lookup compares the UUID only, as the source does.
- The notary's consumed-input set and double-spend detection are not implemented in this repository, so they are not modelled.
- Commented-out rules (KYC name checks, loan and cash-in amount limits, the acceptor's amount cap) are not live and are not modelled.
- ContractVerification.VerifyContracts: runs the contracts in list order and reports the first rejection. Corda's `LedgerTransaction.verify` is library code and is not part of this model. It loads every contract class before running any and runs each distinct contract once. So an unknown contract name later in the list would be reported there ahead of an earlier contract's rejection. Only the reason can differ; whether the transaction is accepted or rejected is the same.
