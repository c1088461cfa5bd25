/**
 * The base64 encoding of section 4 of RFC 4648 (alphabet A-Z a-z 0-9 + /, "=" padding),
 * with Python's lenient decoder, and the byte-to-text step `bytes.decode('utf-8', errors='ignore')`
 * restricted to ASCII.
 */
module Base64 {
  import opened Wrappers

  newtype byte = x: int | 0 <= x < 256

  /** The character for a 6-bit value (Table 1 of RFC 4648). */
  function CharOf(v: int): char
    requires 0 <= v < 64
  {
    if v < 26 then ('A' as int + v) as char
    else if v < 52 then ('a' as int + v - 26) as char
    else if v < 62 then ('0' as int + v - 52) as char
    else if v == 62 then '+'
    else '/'
  }

  /** The 6-bit value of an alphabet character, or -1 outside the alphabet. */
  function ValueOf(c: char): (v: int)
    ensures -1 <= v < 64
  {
    if 'A' <= c <= 'Z' then c as int - 'A' as int
    else if 'a' <= c <= 'z' then c as int - 'a' as int + 26
    else if '0' <= c <= '9' then c as int - '0' as int + 52
    else if c == '+' then 62
    else if c == '/' then 63
    else -1
  }

  predicate IsBase64Char(c: char) { ValueOf(c) >= 0 }

  lemma ValueOfCharOf(v: int)
    requires 0 <= v < 64
    ensures ValueOf(CharOf(v)) == v
    ensures CharOf(v) != '='
  {
  }

  /** Three bytes as four characters. */
  function EncodeBlock(x: byte, y: byte, z: byte): string {
    [CharOf(x as int / 4), CharOf((x as int % 4) * 16 + y as int / 16),
     CharOf((y as int % 16) * 4 + z as int / 64), CharOf(z as int % 64)]
  }

  /** `base64.b64encode(b)` */
  function Encode(b: seq<byte>): (s: string)
    ensures |s| % 4 == 0
    decreases |b|
  {
    if |b| == 0 then ""
    else if |b| == 1 then
      [CharOf(b[0] as int / 4), CharOf((b[0] as int % 4) * 16)] + "=="
    else if |b| == 2 then
      [CharOf(b[0] as int / 4), CharOf((b[0] as int % 4) * 16 + b[1] as int / 16),
       CharOf((b[1] as int % 16) * 4)] + "="
    else EncodeBlock(b[0], b[1], b[2]) + Encode(b[3..])
  }

  /** Every character is ASCII: `b64decode` refuses any other text with a `ValueError`. */
  predicate IsAscii(s: string) {
    forall i :: 0 <= i < |s| ==> s[i] as int < 128
  }

  /** A decoding that went through, with `b` in front; a failure stays a failure. */
  function Prepend(b: byte, r: Option<seq<byte>>): Option<seq<byte>> {
    match r
    case None => None
    case Some(t) => Some([b] + t)
  }

  /** A decoding that went through, with `bs` in front; a failure stays a failure. */
  function Then(bs: seq<byte>, r: Option<seq<byte>>): Option<seq<byte>> {
    match r
    case None => None
    case Some(t) => Some(bs + t)
  }

  /**
   * `binascii.a2b_base64(s, strict_mode=False)` from inside a group of four: `quad` data
   * characters of the group are read, `left` holds their bits not yet output and `pads` counts
   * the "=" met since the last data character. A character outside the alphabet is skipped,
   * "=" is skipped too unless it completes a group of which at least two data characters were
   * read, in which case decoding stops there; an unfinished group at the end is an error.
   */
  function DecodeFrom(s: string, quad: nat, left: nat, pads: nat): Option<seq<byte>>
    requires quad < 4
    requires quad == 1 ==> left < 64
    requires quad == 2 ==> left < 16
    requires quad == 3 ==> left < 4
    decreases |s|
  {
    if |s| == 0 then (if quad == 0 then Some([]) else None)
    else if s[0] == '=' then
      if quad >= 2 && quad + pads + 1 >= 4 then Some([])
      else DecodeFrom(s[1..], quad, left, if quad >= 2 then pads + 1 else pads)
    else
      var v := ValueOf(s[0]);
      if v < 0 then DecodeFrom(s[1..], quad, left, pads)
      else if quad == 0 then DecodeFrom(s[1..], 1, v, 0)
      else if quad == 1 then Prepend((left * 4 + v / 16) as byte, DecodeFrom(s[1..], 2, v % 16, 0))
      else if quad == 2 then Prepend((left * 16 + v / 4) as byte, DecodeFrom(s[1..], 3, v % 4, 0))
      else Prepend((left * 64 + v) as byte, DecodeFrom(s[1..], 0, 0, 0))
  }

  /**
   * `base64.b64decode(s)` (not validating): `None` where Python raises, for text that is not
   * ASCII or whose data characters leave a group unfinished.
   */
  function Decode(s: string): Option<seq<byte>> {
    if !IsAscii(s) then None else DecodeFrom(s, 0, 0, 0)
  }

  /** The first data character of a group is held back. */
  lemma FirstStep(v: int, rest: string)
    requires 0 <= v < 64
    ensures DecodeFrom([CharOf(v)] + rest, 0, 0, 0) == DecodeFrom(rest, 1, v, 0)
  {
    ValueOfCharOf(v);
    assert ([CharOf(v)] + rest)[1..] == rest;
  }

  /** The second data character of a group completes its first byte. */
  lemma SecondStep(left: int, v: int, rest: string)
    requires 0 <= left < 64 && 0 <= v < 64
    ensures DecodeFrom([CharOf(v)] + rest, 1, left, 0) ==
      Prepend((left * 4 + v / 16) as byte, DecodeFrom(rest, 2, v % 16, 0))
  {
    ValueOfCharOf(v);
    assert ([CharOf(v)] + rest)[1..] == rest;
  }

  /** The third data character of a group completes its second byte. */
  lemma ThirdStep(left: int, v: int, rest: string)
    requires 0 <= left < 16 && 0 <= v < 64
    ensures DecodeFrom([CharOf(v)] + rest, 2, left, 0) ==
      Prepend((left * 16 + v / 4) as byte, DecodeFrom(rest, 3, v % 4, 0))
  {
    ValueOfCharOf(v);
    assert ([CharOf(v)] + rest)[1..] == rest;
  }

  /** The fourth data character of a group completes its third byte. */
  lemma FourthStep(left: int, v: int, rest: string)
    requires 0 <= left < 4 && 0 <= v < 64
    ensures DecodeFrom([CharOf(v)] + rest, 3, left, 0) ==
      Prepend((left * 64 + v) as byte, DecodeFrom(rest, 0, 0, 0))
  {
    ValueOfCharOf(v);
    assert ([CharOf(v)] + rest)[1..] == rest;
  }

  /** One "=" read by the decoder inside a group of which two or three characters were read. */
  lemma PadStep(rest: string, quad: nat, left: nat, pads: nat)
    requires 2 <= quad < 4
    requires quad == 2 ==> left < 16
    requires quad == 3 ==> left < 4
    ensures DecodeFrom("=" + rest, quad, left, pads) ==
      if quad + pads + 1 >= 4 then Some([]) else DecodeFrom(rest, quad, left, pads + 1)
  {
    assert ("=" + rest)[1..] == rest;
  }

  /** The three bytes four values stand for. */
  function DecodeValues(a: int, b: int, c: int, d: int): seq<byte>
    requires 0 <= a < 64 && 0 <= b < 64 && 0 <= c < 64 && 0 <= d < 64
  {
    [(a * 4 + b / 16) as byte, ((b % 16) * 16 + c / 4) as byte, ((c % 4) * 64 + d) as byte]
  }

  /** Four data characters decode to their three bytes and leave the decoder at a group start. */
  lemma QuadThen(a: int, b: int, c: int, d: int, t: string)
    requires 0 <= a < 64 && 0 <= b < 64 && 0 <= c < 64 && 0 <= d < 64
    ensures DecodeFrom([CharOf(a)] + ([CharOf(b)] + ([CharOf(c)] + ([CharOf(d)] + t))), 0, 0, 0)
      == Then(DecodeValues(a, b, c, d), DecodeFrom(t, 0, 0, 0))
  {
    var s3 := [CharOf(d)] + t;
    var s2 := [CharOf(c)] + s3;
    var s1 := [CharOf(b)] + s2;
    var r := DecodeFrom(t, 0, 0, 0);
    var v := DecodeValues(a, b, c, d);
    assert v[0] == (a * 4 + b / 16) as byte && v[1] == ((b % 16) * 16 + c / 4) as byte;
    assert v[2] == ((c % 4) * 64 + d) as byte;
    FourthStep(c % 4, d, t);
    var r3 := Prepend(v[2], r);
    assert DecodeFrom(s3, 3, c % 4, 0) == r3;
    ThirdStep(b % 16, c, s3);
    var r2 := Prepend(v[1], r3);
    assert DecodeFrom(s2, 2, b % 16, 0) == r2;
    SecondStep(a, b, s2);
    assert DecodeFrom(s1, 1, a, 0) == Prepend(v[0], r2);
    FirstStep(a, s1);
    PrependThree(v, r);
  }

  lemma PrependThree(v: seq<byte>, r: Option<seq<byte>>)
    requires |v| == 3
    ensures Prepend(v[0], Prepend(v[1], Prepend(v[2], r))) == Then(v, r)
  {
    match r
    case None =>
    case Some(u) => assert [v[0]] + ([v[1]] + ([v[2]] + u)) == v + u;
  }

  /** The values of the four characters encoding three bytes give those bytes back. */
  lemma BlockValues(x: byte, y: byte, z: byte)
    ensures var a, b, c, d := x as int / 4, (x as int % 4) * 16 + y as int / 16,
                              (y as int % 16) * 4 + z as int / 64, z as int % 64;
      && 0 <= a < 64 && 0 <= b < 64 && 0 <= c < 64 && 0 <= d < 64
      && DecodeValues(a, b, c, d) == [x, y, z]
  {
  }

  /** A full group of four decodes to its three bytes and leaves the decoder at a group start. */
  lemma GroupThen(x: byte, y: byte, z: byte, t: string)
    ensures DecodeFrom(EncodeBlock(x, y, z) + t, 0, 0, 0) == Then([x, y, z], DecodeFrom(t, 0, 0, 0))
  {
    var a, b, c, d := x as int / 4, (x as int % 4) * 16 + y as int / 16,
                      (y as int % 16) * 4 + z as int / 64, z as int % 64;
    BlockValues(x, y, z);
    assert EncodeBlock(x, y, z) + t == [CharOf(a)] + ([CharOf(b)] + ([CharOf(c)] + ([CharOf(d)] + t)));
    QuadThen(a, b, c, d, t);
  }

  /** A final group holding one byte ends the decoding at its second "=". */
  lemma OneByteThen(x: byte, t: string)
    ensures DecodeFrom(Encode([x]) + t, 0, 0, 0) == Some([x])
  {
    var a, b := x as int / 4, (x as int % 4) * 16;
    assert (a * 4 + b / 16) as byte == x && b % 16 == 0;
    var s2 := "=" + ("=" + t);
    assert Encode([x]) == [CharOf(a), CharOf(b)] + "==";
    assert Encode([x]) + t == [CharOf(a)] + ([CharOf(b)] + s2);
    PadStep(t, 2, 0, 1);
    PadStep("=" + t, 2, 0, 0);
    assert DecodeFrom(s2, 2, b % 16, 0) == Some([]);
    SecondStep(a, b, s2);
    assert [x] + [] == [x];
    assert DecodeFrom([CharOf(b)] + s2, 1, a, 0) == Some([x]);
    FirstStep(a, [CharOf(b)] + s2);
  }

  /** The last two characters of a group ending in one "=" complete its second byte. */
  lemma TwoBytesTail(left: int, v: int, t: string)
    requires 0 <= left < 16 && 0 <= v < 64
    ensures DecodeFrom([CharOf(v)] + ("=" + t), 2, left, 0) == Some([(left * 16 + v / 4) as byte])
  {
    PadStep(t, 3, v % 4, 0);
    ThirdStep(left, v, "=" + t);
    assert [(left * 16 + v / 4) as byte] + [] == [(left * 16 + v / 4) as byte];
  }

  /** A final group holding two bytes ends the decoding at its "=". */
  lemma TwoBytesThen(x: byte, y: byte, t: string)
    ensures DecodeFrom(Encode([x, y]) + t, 0, 0, 0) == Some([x, y])
  {
    var a, b, c := x as int / 4, (x as int % 4) * 16 + y as int / 16, (y as int % 16) * 4;
    TwoByteValues(x, y);
    var s2 := [CharOf(c)] + ("=" + t);
    var s1 := [CharOf(b)] + s2;
    assert Encode([x, y]) == [CharOf(a), CharOf(b), CharOf(c)] + "=";
    assert Encode([x, y]) + t == [CharOf(a)] + s1;
    TwoBytesTail(b % 16, c, t);
    assert DecodeFrom(s2, 2, b % 16, 0) == Some([y]);
    SecondStep(a, b, s2);
    assert [x] + [y] == [x, y];
    assert DecodeFrom(s1, 1, a, 0) == Some([x, y]);
    FirstStep(a, s1);
  }

  lemma TwoByteValues(x: byte, y: byte)
    ensures var a, b, c := x as int / 4, (x as int % 4) * 16 + y as int / 16, (y as int % 16) * 4;
      0 <= a < 64 && 0 <= b < 64 && 0 <= c < 64 &&
      a * 4 + b / 16 == x as int && (b % 16) * 16 + c / 4 == y as int
  {
  }

  /**
   * An encoding followed by any text: a padded encoding decodes to its bytes whatever follows,
   * and an unpadded one to its bytes followed by the decoding of what follows.
   */
  lemma {:induction false} EncodeThen(bs: seq<byte>, t: string)
    ensures DecodeFrom(Encode(bs) + t, 0, 0, 0) ==
      if |bs| % 3 == 0 then Then(bs, DecodeFrom(t, 0, 0, 0)) else Some(bs)
    decreases |bs|
  {
    if |bs| == 0 {
      assert Encode(bs) + t == t;
      ThenNothing(DecodeFrom(t, 0, 0, 0));
    } else if |bs| == 1 {
      assert bs == [bs[0]];
      OneByteThen(bs[0], t);
    } else if |bs| == 2 {
      assert bs == [bs[0], bs[1]];
      TwoBytesThen(bs[0], bs[1], t);
    } else {
      EncodeThen(bs[3..], t);
      EncodeGroupThen(bs, t);
    }
  }

  lemma ThenNothing(r: Option<seq<byte>>)
    ensures Then([], r) == r
  {
    match r
    case None =>
    case Some(u) => assert [] + u == u;
  }

  /** The step of `EncodeThen` over a leading group of three bytes. */
  lemma EncodeGroupThen(bs: seq<byte>, t: string)
    requires |bs| > 2
    requires DecodeFrom(Encode(bs[3..]) + t, 0, 0, 0) ==
      if |bs[3..]| % 3 == 0 then Then(bs[3..], DecodeFrom(t, 0, 0, 0)) else Some(bs[3..])
    ensures DecodeFrom(Encode(bs) + t, 0, 0, 0) ==
      if |bs| % 3 == 0 then Then(bs, DecodeFrom(t, 0, 0, 0)) else Some(bs)
  {
    var head, tail := [bs[0], bs[1], bs[2]], bs[3..];
    var rest := Encode(tail);
    var r := DecodeFrom(t, 0, 0, 0);
    var d := DecodeFrom(rest + t, 0, 0, 0);
    assert Encode(bs) == EncodeBlock(bs[0], bs[1], bs[2]) + rest;
    assert Encode(bs) + t == EncodeBlock(bs[0], bs[1], bs[2]) + (rest + t);
    GroupThen(bs[0], bs[1], bs[2], rest + t);
    assert DecodeFrom(Encode(bs) + t, 0, 0, 0) == Then(head, d);
    assert head + tail == bs;
    ThenThen(head, tail, r);
    ModThree(|tail|);
    if |bs| % 3 == 0 {
      assert d == Then(tail, r);
    } else {
      assert d == Some(tail);
    }
  }

  lemma ModThree(n: nat)
    ensures (n + 3) % 3 == n % 3
  {
  }

  lemma ThenThen(u: seq<byte>, v: seq<byte>, r: Option<seq<byte>>)
    ensures Then(u, Then(v, r)) == Then(u + v, r)
    ensures Then(u, Some(v)) == Some(u + v)
  {
    match r
    case None =>
    case Some(w) => assert u + (v + w) == (u + v) + w;
  }

  /** Every character of an encoding is ASCII. */
  lemma {:induction false} EncodeAscii(bs: seq<byte>)
    ensures IsAscii(Encode(bs))
    decreases |bs|
  {
    if |bs| > 2 {
      EncodeAscii(bs[3..]);
      var s := Encode(bs);
      assert s == EncodeBlock(bs[0], bs[1], bs[2]) + Encode(bs[3..]);
      assert forall i :: 4 <= i < |s| ==> s[i] == Encode(bs[3..])[i - 4];
    }
  }

  /** Decoding what was encoded gives the bytes back. */
  lemma DecodeEncode(bs: seq<byte>)
    ensures Decode(Encode(bs)) == Some(bs)
  {
    EncodeAscii(bs);
    EncodeThen(bs, "");
    assert Encode(bs) + "" == Encode(bs);
    assert bs + [] == bs;
  }

  /**
   * Trailing text does not hide an encoding: after a padded encoding it is ignored, and after
   * an unpadded one "=" is skipped and further groups add their bytes.
   */
  lemma DecodeEncodeThen(bs: seq<byte>, t: string)
    requires IsAscii(t)
    ensures |bs| % 3 != 0 ==> Decode(Encode(bs) + t) == Some(bs)
    ensures |bs| % 3 == 0 ==> Decode(Encode(bs) + t) == Then(bs, Decode(t))
  {
    EncodeAscii(bs);
    AsciiConcat(Encode(bs), t);
    EncodeThen(bs, t);
  }

  lemma AsciiConcat(u: string, t: string)
    requires IsAscii(u) && IsAscii(t)
    ensures IsAscii(u + t)
  {
    var s := u + t;
    assert forall i :: |u| <= i < |s| ==> s[i] == t[i - |u|];
  }

  /** A lone "=" decodes to nothing, as does the empty text. */
  lemma LonePad()
    ensures Decode("=") == Some([]) && Decode("") == Some([])
  {
    assert "="[1..] == "";
  }

  /** `bytes.decode('utf-8', errors='ignore')`, keeping the ASCII bytes. */
  function AsciiText(bs: seq<byte>): (t: string)
    ensures |t| <= |bs|
  {
    if |bs| == 0 then ""
    else (if bs[0] < 128 then [bs[0] as int as char] else "") + AsciiText(bs[1..])
  }

  /** The value of a hexadecimal digit, or -1. */
  function HexValue(c: char): (v: int)
    ensures -1 <= v < 16
  {
    if '0' <= c <= '9' then c as int - '0' as int
    else if 'a' <= c <= 'f' then c as int - 'a' as int + 10
    else if 'A' <= c <= 'F' then c as int - 'A' as int + 10
    else -1
  }

  /** `binascii.unhexlify(s)`: `None` for an odd length or a non-hex digit. */
  function Unhexlify(s: string): (r: Option<seq<byte>>)
    ensures r.Some? ==> |r.value| * 2 == |s|
    decreases |s|
  {
    if |s| % 2 != 0 then None
    else if |s| == 0 then Some([])
    else
      var hi, lo := HexValue(s[0]), HexValue(s[1]);
      if hi < 0 || lo < 0 then None
      else match Unhexlify(s[2..])
        case None => None
        case Some(rest) => Some([(hi * 16 + lo) as byte] + rest)
  }
}
