/**
 * The two signatures of a private request (order.signature.secp256k1.ts): the trading key's
 * secp256k1 signature of an order message, written as 130 hex characters, and the orderly
 * key's Ed25519 signature of the request message, written in base64.
 */
module OrderSignature {
  import opened Wrappers
  import opened Text
  import opened External
  import Hex
  import Base64

  /** Left-pads a text with '0' to 64 characters; longer texts are kept as they are. */
  function HandleZero(s: string): (r: string)
    ensures |r| == if |s| < 64 then 64 else |s|
    ensures r[|r| - |s|..] == s
    ensures forall i :: 0 <= i < |r| - |s| ==> r[i] == '0'
  {
    if |s| < 64 then Zeros(64 - |s|) + s else s
  }

  lemma HandleZeroIdempotent(s: string)
    ensures HandleZero(HandleZero(s)) == HandleZero(s)
  {
  }

  /** Padding a hex number keeps it hex and keeps its value. */
  lemma HandleZeroValue(s: string)
    requires Hex.IsHex(s)
    ensures Hex.IsHex(HandleZero(s)) && Hex.ToNat(HandleZero(s)) == Hex.ToNat(s)
  {
    if |s| < 64 {
      Hex.ToNatLeadingZeros(64 - |s|, s);
    }
  }

  lemma {:induction false} Pow16Add(a: nat, b: nat)
    ensures Hex.Pow16(a + b) == Hex.Pow16(a) * Hex.Pow16(b)
  {
    if a > 0 {
      Pow16Add(a - 1, b);
      assert Hex.Pow16(a + b) == 16 * Hex.Pow16(a - 1 + b);
      MulAssoc(16, Hex.Pow16(a - 1), Hex.Pow16(b));
    }
  }

  lemma MulAssoc(x: int, y: int, z: int)
    ensures x * (y * z) == (x * y) * z
  {
  }

  lemma Pow16Of64()
    ensures Hex.Pow16(64) == Bound256
  {
    assert Hex.Pow16(2) == 0x100;
    Pow16Add(2, 2);
    assert Hex.Pow16(4) == 0x1_0000;
    Pow16Add(4, 4);
    assert Hex.Pow16(8) == 0x1_0000_0000;
    Pow16Add(8, 8);
    assert Hex.Pow16(16) == 0x1_0000_0000_0000_0000;
    Pow16Add(16, 16);
    assert Hex.Pow16(32) == 0x1_0000_0000_0000_0000_0000_0000_0000_0000;
    Pow16Add(32, 32);
  }

  /** A number below 2^256 as 64 hex digits: handleZero(n.toJSON()). */
  function Word(n: nat): string {
    HandleZero(Hex.FromNat(n))
  }

  /** Below 2^256 the word is exactly 64 hex digits and reads back as n. */
  lemma WordValue(n: nat)
    requires n < Bound256
    ensures |Word(n)| == 64 && Hex.IsHex(Word(n)) && Hex.ToNat(Word(n)) == n
  {
    Pow16Of64();
    Hex.FromNatLength(n, 64);
    Hex.ToNatFromNat(n);
    HandleZeroValue(Hex.FromNat(n));
  }

  /**
   * signMessageByTradingKey: r and s as 64 hex digits each, then "0" and the recovery
   * parameter, of the ECDSA signature over the Keccak-256 hash of the message.
   */
  function SignMessageByTradingKey(lib: Lib, tradingSecret: string, message: string): string {
    var e := lib.ecdsaSign(tradingSecret, lib.keccak256(message));
    Word(e.r) + Word(e.s) + "0" + Decimal(e.recoveryParam)
  }

  /** The trading signature is 130 characters and reads back as the ECDSA signature of the message's digest. */
  lemma TradingSignatureParses(lib: Lib, tradingSecret: string, message: string)
    ensures var sig := SignMessageByTradingKey(lib, tradingSecret, message);
      |sig| == 130 && sig[128] == '0'
      && ParseTradingSignature(sig) == Some(lib.ecdsaSign(tradingSecret, lib.keccak256(message)))
  {
    var e := lib.ecdsaSign(tradingSecret, lib.keccak256(message));
    assert Decimal(e.recoveryParam) == [DigitChar(e.recoveryParam)];
    WordValue(e.r);
    WordValue(e.s);
    ParseWords(Word(e.r), Word(e.s), e.recoveryParam);
  }

  /** How a verifier reads the 130-character trading signature back into (r, s, recoveryParam). */
  function ParseTradingSignature(sig: string): (e: Option<EcdsaSignature>)
    ensures e.Some? ==> |sig| == 130 && sig[128] == '0'
  {
    if |sig| == 130 && Hex.IsHex(sig) && sig[128] == '0' && '0' <= sig[129] <= '3' then
      Some(EcdsaSignature(Hex.ToNat(sig[..64]), Hex.ToNat(sig[64..128]), sig[129] as int - '0' as int))
    else None
  }

  lemma ParseWords(a: string, b: string, d: nat)
    requires |a| == 64 && |b| == 64 && Hex.IsHex(a) && Hex.IsHex(b) && d < 4
    ensures var sig := a + b + "0" + [DigitChar(d)];
      |sig| == 130 && Hex.IsHex(sig) && sig[128] == '0'
      && ParseTradingSignature(sig) == Some(EcdsaSignature(Hex.ToNat(a), Hex.ToNat(b), d))
  {
    var sig := a + b + "0" + [DigitChar(d)];
    assert sig[..64] == a && sig[64..128] == b;
  }

  /** signPostRequestByOrderlyKey: the base64 text of the 64-byte Ed25519 signature of the message. */
  function SignPostRequestByOrderlyKey(lib: Lib, orderlySecret: string, message: seq<byte>): string {
    Base64.Encode(lib.ed25519Sign(orderlySecret, message))
  }

  /** The orderly signature is 88 base64 characters that decode to the Ed25519 signature of the message. */
  lemma OrderlySignatureDecodes(lib: Lib, orderlySecret: string, message: seq<byte>)
    ensures var sig := SignPostRequestByOrderlyKey(lib, orderlySecret, message);
      |sig| == 88 && Base64.Decode(sig) == Some(lib.ed25519Sign(orderlySecret, message))
  {
    Base64.DecodeEncode(lib.ed25519Sign(orderlySecret, message));
  }

  /** How the server checks an orderly-signature header against the orderly public key. */
  predicate OrderlySignatureValid(lib: Lib, orderlyKey: string, message: seq<byte>, sig: string) {
    match Base64.Decode(sig)
    case Some(raw) => lib.ed25519Verify(orderlyKey, message, raw)
    case None => false
  }

  /** A request signed with the orderly secret is accepted under the matching public key. */
  lemma SignedRequestVerifies(lib: Lib, orderlySecret: string, orderlyKey: string, message: seq<byte>)
    requires KeysMatch(lib, orderlySecret, orderlyKey)
    ensures OrderlySignatureValid(lib, orderlyKey, message, SignPostRequestByOrderlyKey(lib, orderlySecret, message))
  {
    OrderlySignatureDecodes(lib, orderlySecret, message);
  }
}
