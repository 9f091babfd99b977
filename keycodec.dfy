/**
 * RSA key material and the PEM codec the signing-key asset relies on. The codec's
 * internals (PEM armour, ASN.1, RSA arithmetic) are not modelled: a `Codec` is any pair
 * of total, deterministic functions, which is all the asset depends on.
 */
module KeyCodec {
  import opened Wrappers
  import opened Asset

  /** The public part of an RSA key: modulus and public exponent. */
  datatype RsaPublicKey = RsaPublicKey(n: nat, e: nat)

  /** An RSA private key; its public part is carried inside it, as in Go's rsa.PrivateKey. */
  datatype RsaPrivateKey = RsaPrivateKey(publicKey: RsaPublicKey, d: nat, primes: seq<nat>)

  /**
   * `pemToPrivateKey` parses PEM bytes as an RSA private key or fails with a message;
   * `publicKeyToPem` serialises a public key as a PEM block or fails with a message.
   */
  datatype Codec = Codec(
    pemToPrivateKey: Bytes -> Result<RsaPrivateKey, string>,
    publicKeyToPem: RsaPublicKey -> Result<Bytes, string>)
}
