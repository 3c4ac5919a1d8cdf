/** Values supplied by the ledger platform that the invoice code only passes
    around: keys, parties, dates and the width of a Java `int`. */
module Corda {

  /** A Java `int`: 32-bit two's complement. The invoice code only stores and
      compares these values, so no wrap-around arithmetic is needed. */
  newtype int32 = x: int | -0x8000_0000 <= x < 0x8000_0000

  /** A public key, compared only for equality. */
  datatype PublicKey = PublicKey(fingerprint: nat)

  /** A well-known party: a legal name and the key that owns it. Two parties
      are equal here when both name and key are; the platform compares owning
      keys only, so the model assumes each key belongs to one legal name. */
  datatype Party = Party(name: string, owningKey: PublicKey)

  /** `java.util.Date`, an opaque pass-through value (milliseconds since the epoch). */
  datatype Date = Date(epochMillis: int)
}
