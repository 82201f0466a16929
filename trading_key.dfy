/**
 * The trading key a client registers on the asset-manager contract: the base64 (btoa) of
 * the hex text of the Keccak-256 digest of the key's public hex text. The newer provisioning
 * path hashes the public key with its "04" prefix removed, the client classes hash it whole.
 */
module TradingKey {
  import opened Wrappers
  import opened Text
  import opened External
  import Hex
  import Base64

  /** A fresh secp256k1 key pair as `ec.genKeyPair()` gives it, both halves written in hex. */
  datatype KeyPair = KeyPair(privateHex: string, publicHex: string)

  /** `encode('hex')` of an uncompressed public point: "04" then 128 hex digits of x and y. */
  predicate Uncompressed(publicHex: string) {
    |publicHex| == 130 && StartsWith(publicHex, "04") && Hex.IsHex(publicHex)
  }

  /** `btoa(keccak256(text).toString('hex'))`. */
  function Normalize(lib: Lib, text: string): string {
    var h := Hex.FromBytes(lib.keccak256(text));
    if Base64.Btoa(h).Some? then Base64.Btoa(h).value else ""
  }

  lemma HexIsLatin1(h: string)
    requires Hex.IsHex(h)
    ensures forall i :: 0 <= i < |h| ==> h[i] as int < 256
  {
    forall i | 0 <= i < |h| ensures h[i] as int < 256 {
      assert Hex.IsHexDigit(h[i]);
    }
  }

  /**
   * The normalized key is 88 base64 characters that decode to the 64 characters of the
   * digest's hex text (not to the 32 digest bytes themselves).
   */
  lemma NormalizeShape(lib: Lib, text: string)
    ensures var h := Hex.FromBytes(lib.keccak256(text));
      && |h| == 64 && Hex.IsHex(h)
      && (forall i :: 0 <= i < |h| ==> h[i] as int < 256)
      && |Normalize(lib, text)| == 88
      && Base64.Decode(Normalize(lib, text)) == Some(Base64.Latin1(h))
  {
    var h := Hex.FromBytes(lib.keccak256(text));
    HexIsLatin1(h);
    var b := Base64.Latin1(h);
    assert Normalize(lib, text) == Base64.Encode(b);
    assert |Base64.Encode(b)| == 4 * ((64 + 2) / 3) == 88;
    Base64.DecodeEncode(b);
  }

  /** `publicHex.replace('04', '')`. */
  function StripPrefix(publicHex: string): string {
    RemoveFirst(publicHex, "04")
  }

  /** On an uncompressed key the first "04" is the prefix: what remains is the 128 digits of x and y. */
  lemma StripUncompressed(publicHex: string)
    requires Uncompressed(publicHex)
    ensures StripPrefix(publicHex) == publicHex[2..] && |StripPrefix(publicHex)| == 128
  {
    RemoveFirstOfPrefix(publicHex, "04");
  }

  datatype GeneratedKey = GeneratedKey(privateKey: string, publicKey: string, pubKeyAsHex: string, normalizeTradingKey: string)

  /** generateTradingKey of the smart-contract client, for the key pair the generator returned. */
  function GenerateTradingKey(lib: Lib, kp: KeyPair): GeneratedKey {
    var stripped := StripPrefix(kp.publicHex);
    GeneratedKey(kp.privateHex, kp.publicHex, stripped, Normalize(lib, stripped))
  }

  /** The returned public key keeps the prefix; only the hashed text loses it. */
  lemma GenerateTradingKeyShape(lib: Lib, kp: KeyPair)
    requires Uncompressed(kp.publicHex)
    ensures var g := GenerateTradingKey(lib, kp);
      && g.publicKey == kp.publicHex && g.privateKey == kp.privateHex
      && g.pubKeyAsHex == kp.publicHex[2..]
      && g.normalizeTradingKey == Normalize(lib, kp.publicHex[2..])
      && |g.normalizeTradingKey| == 88
  {
    StripUncompressed(kp.publicHex);
    NormalizeShape(lib, kp.publicHex[2..]);
  }
}
