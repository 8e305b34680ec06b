/** The know-your-customer record of a wallet holder. */
module KycStates {
  import opened CordaTypes

  /** Every field is final and set by the all-arguments constructor. */
  datatype KYCState = KYCState(
    linearId: UniqueIdentifier,
    accountId: Long,
    lastname: NullableString,
    firstname: NullableString,
    middlename: NullableString,
    birthday: NullableString,
    permanentAddress: NullableString,
    currentAddress: NullableString,
    fathername: NullableString,
    mothername: NullableString,
    gender: NullableString,
    contactNo: NullableString,
    maritalStatus: NullableString,
    nationality: NullableString,
    occupation: NullableString,
    income: NullableString,
    sender: Party,
    receiver: Party)

  /** `getParticipants`: the sender, then the receiver, with no deduplication. */
  function Participants(s: KYCState): (ps: seq<Party>)
    ensures |ps| == 2 && ps[0] == s.sender && ps[1] == s.receiver
  {
    [s.sender, s.receiver]
  }
}
