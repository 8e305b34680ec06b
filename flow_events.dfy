/** What the initiating flows share: the ghost record of the phases they pass
    through, their errors and their outcome. */
module FlowEvents {
  import opened CordaTypes
  import opened Ledger

  /** The phases of an initiating flow after the proposal is built. Signing,
      signature collection and finality are opaque platform steps. */
  datatype Event =
    | LocallyVerified              // txBuilder.verify returned
    | SignedInitial(key: PublicKey) // signInitialTransaction
    | SessionOpened(peer: Party)   // initiateFlow
    | SignaturesCollected(peer: Party) // CollectSignaturesFlow returned
    | Finalised(peer: Party)       // FinalityFlow returned

  /** The phases of a run that reaches finality, in the order they happen. */
  function CompletedRun(key: PublicKey, peer: Party): seq<Event>
  {
    [LocallyVerified, SignedInitial(key), SessionOpened(peer), SignaturesCollected(peer), Finalised(peer)]
  }

  datatype FlowError =
    | NoNotary                              // getNotaryIdentities().get(0) on an empty list
    | LoanNotFound(message: string)         // the vault holds no loan with the id
    | VerificationFailed(reason: Rejection) // txBuilder.verify threw

  datatype FlowResult = Recorded(tx: LedgerTransaction) | Aborted(error: FlowError)
}
