/** The rules for know-your-customer records: none are live, so every
    transaction is accepted, including one without commands. */
module KycContract {
  import opened Ledger

  const ID := "net.corda.koalanab.blockwallet.contracts.KYCContract"

  /** `KYCContract.verify`: its body is empty. */
  function Verify(tx: LedgerTransaction): (r: Verdict)
    ensures r == Ok
  {
    Ok
  }
}
