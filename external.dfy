/**
 * The library functions the SDK calls but does not implement: Keccak-256, the
 * secp256k1 and Ed25519 signers, UTF-8 encoding (TextEncoder) and the string
 * quoting of JSON.stringify and of URLSearchParams. Each is a field of `Lib`,
 * so every property proved here holds for whatever those functions compute.
 */
module External {
  import opened Text

  /** A Keccak-256 digest: 32 bytes. */
  type Digest = d: seq<byte> | |d| == 32 witness seq(32, _ => 0)

  /** A raw Ed25519 signature (section 5.1.6 of RFC 8032): 64 bytes. */
  type Ed25519Signature = s: seq<byte> | |s| == 64 witness seq(64, _ => 0)

  /** 2^256: r and s of a secp256k1 signature are below the group order, hence below this. */
  const Bound256: nat := 0x1_0000_0000_0000_0000_0000_0000_0000_0000_0000_0000_0000_0000_0000_0000_0000_0000

  datatype EcdsaSignature = EcdsaSignature(r: nat, s: nat, recoveryParam: nat)

  /** What elliptic's `ec.sign` returns: r, s below 2^256 and a recovery parameter in 0..3. */
  type EcdsaSig = e: EcdsaSignature | e.r < Bound256 && e.s < Bound256 && e.recoveryParam < 4
    witness EcdsaSignature(0, 0, 0)

  datatype Lib = Lib(
    /** new TextEncoder().encode(text) */
    utf8: string -> seq<byte>,
    /** keccak256(text) from the keccak256 package: the digest of the text's UTF-8 bytes */
    keccak256: string -> Digest,
    /** ec.sign(digest, privateKeyHex, 'hex', {canonical: true}) on curve secp256k1 */
    ecdsaSign: (string, Digest) -> EcdsaSig,
    /** KeyPair.fromString(secret).sign(bytes).signature */
    ed25519Sign: (string, seq<byte>) -> Ed25519Signature,
    /** Ed25519 verification under a public key, as the exchange performs it */
    ed25519Verify: (string, seq<byte>, seq<byte>) -> bool,
    /** JSON.stringify of a string: the quoted, escaped literal */
    jsonString: string -> string,
    /** the application/x-www-form-urlencoded byte serializer applied to one name or value */
    formEscape: string -> string)

  /** The Ed25519 secret and public key belong together: every signature by the one verifies under the other. */
  ghost predicate KeysMatch(lib: Lib, secret: string, publicKey: string) {
    forall m :: lib.ed25519Verify(publicKey, m, lib.ed25519Sign(secret, m))
  }
}
