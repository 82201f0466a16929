/**
 * The base64 encoding of section 4 of RFC 4648, as produced by
 * `Buffer.prototype.toString('base64')` and by `btoa`, with a decoder that
 * recovers the bytes (the side that verifies a signature header).
 */
module Base64 {
  import opened Text
  import opened Wrappers

  /** The character of a 6-bit value in the base64 alphabet (A-Z, a-z, 0-9, '+', '/'). */
  function Char(i: nat): char
    requires i < 64
  {
    if i < 26 then ('A' as int + i) as char
    else if i < 52 then ('a' as int + (i - 26)) as char
    else if i < 62 then ('0' as int + (i - 52)) as char
    else if i == 62 then '+'
    else '/'
  }

  /** The 6-bit value of a base64 alphabet character; None for any other character, '=' included. */
  function Index(c: char): Option<nat> {
    if 'A' <= c <= 'Z' then Some(c as int - 'A' as int)
    else if 'a' <= c <= 'z' then Some(c as int - 'a' as int + 26)
    else if '0' <= c <= '9' then Some(c as int - '0' as int + 52)
    else if c == '+' then Some(62)
    else if c == '/' then Some(63)
    else None
  }

  lemma IndexOfChar(i: nat)
    requires i < 64
    ensures Index(Char(i)) == Some(i)
  {
  }

  /** Encodes three bytes at a time; a final group of one or two bytes is padded with '='. */
  function Encode(b: seq<byte>): (s: string)
    ensures |s| == 4 * ((|b| + 2) / 3)
  {
    if |b| == 0 then ""
    else if |b| == 1 then
      [Char(b[0] / 4), Char((b[0] % 4) * 16), '=', '=']
    else if |b| == 2 then
      [Char(b[0] / 4), Char((b[0] % 4) * 16 + b[1] / 16), Char((b[1] % 16) * 4), '=']
    else
      [Char(b[0] / 4), Char((b[0] % 4) * 16 + b[1] / 16), Char((b[1] % 16) * 4 + b[2] / 64), Char(b[2] % 64)]
      + Encode(b[3..])
  }

  /** Decodes one group of four characters; padding is accepted in the last group only. */
  function DecodeGroup(g: string, last: bool): Option<seq<byte>>
    requires |g| == 4
  {
    var i0, i1, i2, i3 := Index(g[0]), Index(g[1]), Index(g[2]), Index(g[3]);
    if i0.None? || i1.None? then None
    else if last && g[2] == '=' && g[3] == '=' then
      Some([i0.value * 4 + i1.value / 16])
    else if i2.None? then None
    else if last && g[3] == '=' then
      Some([i0.value * 4 + i1.value / 16, (i1.value % 16) * 16 + i2.value / 4])
    else if i3.None? then None
    else
      Some([i0.value * 4 + i1.value / 16, (i1.value % 16) * 16 + i2.value / 4, (i2.value % 4) * 64 + i3.value])
  }

  function Decode(s: string): Option<seq<byte>>
    decreases |s|
  {
    if |s| == 0 then Some([])
    else if |s| < 4 then None
    else
      match DecodeGroup(s[..4], |s| == 4)
      case None => None
      case Some(g) =>
        match Decode(s[4..])
        case None => None
        case Some(rest) => Some(g + rest)
  }

  lemma SplitByte(x: nat, k: nat)
    requires k == 4 || k == 16 || k == 64
    ensures (x / k) * k + x % k == x
  {
  }

  lemma CharIsNotPad(i: nat)
    requires i < 64
    ensures Char(i) != '=' && Index(Char(i)) == Some(i)
  {
  }

  /** The 6-bit groups of three bytes put back together. */
  lemma Regroup(b0: byte, b1: byte, b2: byte)
    ensures (b0 / 4) * 4 + ((b0 % 4) * 16 + b1 / 16) / 16 == b0
    ensures (((b0 % 4) * 16 + b1 / 16) % 16) * 16 + ((b1 % 16) * 4 + b2 / 64) / 4 == b1
    ensures (((b1 % 16) * 4 + b2 / 64) % 4) * 64 + b2 % 64 == b2
  {
    var c1 := (b0 % 4) * 16 + b1 / 16;
    var c2 := (b1 % 16) * 4 + b2 / 64;
    assert c1 / 16 == b0 % 4 && c1 % 16 == b1 / 16;
    assert c2 / 4 == b1 % 16 && c2 % 4 == b2 / 64;
    SplitByte(b0, 4);
    SplitByte(b1, 16);
    SplitByte(b2, 64);
  }

  lemma DecodeOne(b0: byte)
    ensures DecodeGroup(Encode([b0]), true) == Some([b0])
  {
    CharIsNotPad(b0 / 4);
    CharIsNotPad((b0 % 4) * 16);
    Regroup(b0, 0, 0);
  }

  lemma DecodeTwo(b0: byte, b1: byte)
    ensures DecodeGroup(Encode([b0, b1]), true) == Some([b0, b1])
  {
    var c1 := (b0 % 4) * 16 + b1 / 16;
    CharIsNotPad(b0 / 4);
    CharIsNotPad(c1);
    CharIsNotPad((b1 % 16) * 4);
    Regroup(b0, b1, 0);
  }

  lemma DecodeThree(b0: byte, b1: byte, b2: byte, last: bool)
    ensures DecodeGroup(Encode([b0, b1, b2])[..4], last) == Some([b0, b1, b2])
  {
    var c1 := (b0 % 4) * 16 + b1 / 16;
    var c2 := (b1 % 16) * 4 + b2 / 64;
    CharIsNotPad(b0 / 4);
    CharIsNotPad(c1);
    CharIsNotPad(c2);
    CharIsNotPad(b2 % 64);
    Regroup(b0, b1, b2);
    var g := [Char(b0 / 4), Char(c1), Char(c2), Char(b2 % 64)];
    assert Encode([b0, b1, b2])[..4] == g;
  }

  lemma EncodeSplit(b: seq<byte>)
    requires |b| >= 3
    ensures Encode(b) == Encode(b[..3]) + Encode(b[3..]) && |Encode(b[..3])| == 4
  {
    assert b[..3] == [b[0], b[1], b[2]];
    assert b[..3][3..] == [];
  }

  /** Decoding an encoding gives back the bytes. */
  lemma {:induction false} DecodeEncode(b: seq<byte>)
    ensures Decode(Encode(b)) == Some(b)
    decreases |b|
  {
    if |b| == 1 {
      DecodeOne(b[0]);
      assert [b[0]] == b;
      var s := Encode(b);
      assert |s| == 4 && s[..4] == s && s[4..] == [];
      assert DecodeGroup(s[..4], true) == Some(b);
      assert Decode(s[4..]) == Some([]);
      assert b + [] == b;
    } else if |b| == 2 {
      DecodeTwo(b[0], b[1]);
      assert [b[0], b[1]] == b;
      var s := Encode(b);
      assert s == Encode([b[0], b[1]]);
      assert |s| == 4 && s[..4] == s && s[4..] == [];
      assert DecodeGroup(s[..4], true) == Some(b);
      assert Decode(s[4..]) == Some([]);
      assert b + [] == b;
    } else if |b| >= 3 {
      var s := Encode(b);
      var head, tail := b[..3], b[3..];
      EncodeSplit(b);
      assert head == [b[0], b[1], b[2]];
      DecodeThree(b[0], b[1], b[2], |s| == 4);
      assert s[..4] == Encode(head)[..4];
      assert s[4..] == Encode(tail);
      DecodeEncode(tail);
      assert b == head + tail;
    }
  }

  /** `btoa`: the base64 of a text whose characters are all below 256, one byte each; it throws otherwise. */
  function Btoa(s: string): (r: Option<string>)
    ensures r.Some? <==> forall i :: 0 <= i < |s| ==> s[i] as int < 256
  {
    if forall i :: 0 <= i < |s| ==> s[i] as int < 256 then Some(Encode(Latin1(s))) else None
  }

  /** The bytes btoa reads from a text: one per character. */
  function Latin1(s: string): seq<byte>
    requires forall i :: 0 <= i < |s| ==> s[i] as int < 256
  {
    seq(|s|, i requires 0 <= i < |s| => s[i] as int as byte)
  }
}
