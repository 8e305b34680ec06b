/** The record of a loan: requested by a wallet holder from a lender, later
    approved or rejected by a copy that overrides the decision fields. */
module LoanStates {
  import opened CordaTypes

  /** Fields in the order of the all-arguments constructor. There are no
      setters, so a changed loan is a new value. Dates are the text of a
      `java.util.Date`. */
  datatype LoanState = LoanState(
    linearId: UniqueIdentifier,
    walletAccountId: Long,
    purpose: NullableString,
    amount: NullableString,
    paymentTerms: NullableString,
    occupation: NullableString,
    grossIncome: NullableString,
    kycId: UniqueIdentifier,
    approved: bool,
    dateApproved: NullableString,
    dateRequested: NullableString,
    dateRejected: NullableString,
    remarks: NullableString,
    creditScore: NullableString,
    paidRemarks: NullableString,
    datePaid: NullableString,
    sender: Party,
    receiver: Party)

  /** `getParticipants`: the sender, then the receiver, with no deduplication. */
  function Participants(s: LoanState): (ps: seq<Party>)
    ensures |ps| == 2 && ps[0] == s.sender && ps[1] == s.receiver
  {
    [s.sender, s.receiver]
  }
}
