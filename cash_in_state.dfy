/** The record of a cash-in from an affiliate account into a wallet. */
module CashInStates {
  import opened CordaTypes

  /** Every field is final and set by the all-arguments constructor, so a
      changed record is a new value. */
  datatype CashInState = CashInState(
    linearId: UniqueIdentifier,
    affiliateAccount: NullableString,
    walletAccount: NullableString,
    amount: NullableString,
    sender: Party,
    receiver: Party)

  /** `getParticipants`: the sender, then the receiver, with no deduplication. */
  function Participants(s: CashInState): (ps: seq<Party>)
    ensures |ps| == 2 && ps[0] == s.sender && ps[1] == s.receiver
  {
    [s.sender, s.receiver]
  }
}
