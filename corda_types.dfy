/** Values the contracts and flows handle but do not define themselves:
    identities, keys, identifiers, and Java's nullable strings and 64-bit
    integers. Keys are opaque: nothing here gives them signature semantics. */
module CordaTypes {

  datatype Option<+T> = None | Some(value: T)

  /** A Java `String` field or argument: `None` stands for `null`. */
  type NullableString = Option<string>

  /** True when a nullable string is present and has at least one character. */
  predicate NonEmpty(s: NullableString)
  {
    s.Some? && s.value != ""
  }

  /** A Java `long`. */
  newtype Long = x: int | -0x8000_0000_0000_0000 <= x < 0x8000_0000_0000_0000

  /** A `java.util.UUID`: a 128-bit value. */
  newtype Uuid = x: int | 0 <= x < 0x1_0000_0000_0000_0000_0000_0000_0000_0000

  /** A `UniqueIdentifier`: an optional external id and a UUID. */
  datatype UniqueIdentifier = UniqueIdentifier(externalId: NullableString, id: Uuid)

  /** An opaque public key. */
  datatype PublicKey = PublicKey(fingerprint: nat)

  /** A well-known party: its legal name and the key that owns its states. */
  datatype Party = Party(name: string, owningKey: PublicKey)
}
