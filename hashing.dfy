/**
 * `generateHash`: the hex SHA-256 digest of a text. The digest is modelled as
 * an ideal fingerprint, one that no two distinct texts share; the bits of
 * SHA-256 are not modelled.
 */
module Hashing {

  datatype Digest = Sha256Of(text: string)

  function GenerateHash(text: string): Digest {
    Sha256Of(text)
  }
}
