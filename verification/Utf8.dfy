/**
 UTF-8 as Node buffers use it: `Buffer.from` and `Buffer.write` encode, `Buffer.toString` decodes.
 Text is a sequence of Unicode scalar values (a JavaScript string without lone surrogates).
 */
module Utf8 {

  type Byte = b: int | 0 <= b < 256

  type Scalar = c: int | 0 <= c < 0xD800 || 0xE000 <= c < 0x11_0000

  type Text = seq<Scalar>

  const REPLACEMENT: Scalar := 0xFFFD

  function EncodeScalar(c: Scalar): (bytes: seq<Byte>)
    ensures 1 <= |bytes| <= 4
  {
    if c < 0x80 then [c]
    else if c < 0x800 then [0xC0 + c / 0x40, 0x80 + c % 0x40]
    else if c < 0x1_0000 then [0xE0 + c / 0x1000, 0x80 + c / 0x40 % 0x40, 0x80 + c % 0x40]
    else [0xF0 + c / 0x4_0000, 0x80 + c / 0x1000 % 0x40, 0x80 + c / 0x40 % 0x40, 0x80 + c % 0x40]
  }

  function Encode(s: Text): seq<Byte> {
    if s == [] then [] else EncodeScalar(s[0]) + Encode(s[1..])
  }

  /** The decoder between two bytes: `left` continuation bytes are still expected, the next one in lower..upper. */
  datatype Decoder = Decoder(code: nat, left: nat, lower: Byte, upper: Byte) {

    /** Whatever continuation bytes follow, the finished code is a scalar value. */
    predicate Valid() {
      left == 0 ||
      (left <= 3 && 0x80 <= lower <= upper <= 0xBF &&
       var unit := if left == 1 then 1 else if left == 2 then 0x40 else 0x1000;
       var least := (code * 0x40 + lower - 0x80) * unit;
       var most := (code * 0x40 + upper - 0x80 + 1) * unit - 1;
       most < 0x11_0000 && (most < 0xD800 || 0xE000 <= least))
    }
  }

  const IDLE := Decoder(0, 0, 0x80, 0xBF)

  /** The state after a lead byte, or an idle state when the byte starts nothing. */
  function Lead(b: Byte): (d: Decoder)
    ensures d.Valid()
  {
    if 0xC2 <= b <= 0xDF then Decoder(b - 0xC0, 1, 0x80, 0xBF)
    else if 0xE0 <= b <= 0xEF then
      Decoder(b - 0xE0, 2, if b == 0xE0 then 0xA0 else 0x80, if b == 0xED then 0x9F else 0xBF)
    else if 0xF0 <= b <= 0xF4 then
      Decoder(b - 0xF0, 3, if b == 0xF0 then 0x90 else 0x80, if b == 0xF4 then 0x8F else 0xBF)
    else IDLE
  }

  /** The decoder of the Encoding Standard: an ill-formed stretch becomes one replacement character and the byte that
      revealed it is read again. */
  function DecodeFrom(d: Decoder, bytes: seq<Byte>): Text
    requires d.Valid()
    decreases |bytes|, d.left
  {
    if bytes == [] then
      if d.left == 0 then [] else [REPLACEMENT]
    else
      var b := bytes[0];
      if d.left == 0 then
        if b < 0x80 then [b] + DecodeFrom(IDLE, bytes[1..])
        else if Lead(b).left == 0 then [REPLACEMENT] + DecodeFrom(IDLE, bytes[1..])
        else DecodeFrom(Lead(b), bytes[1..])
      else if !(d.lower <= b <= d.upper) then [REPLACEMENT] + DecodeFrom(IDLE, bytes)
      else
        var code := d.code * 0x40 + b - 0x80;
        if d.left == 1 then [code] + DecodeFrom(IDLE, bytes[1..])
        else DecodeFrom(Decoder(code, d.left - 1, 0x80, 0xBF), bytes[1..])
  }

  function Decode(bytes: seq<Byte>): Text {
    DecodeFrom(IDLE, bytes)
  }

  lemma {:induction false} Regroup(a: seq<Byte>, b: seq<Byte>, c: seq<Byte>)
    ensures a + (b + c) == a + b + c
  {
  }

  lemma {:induction false} EncodeAppend(s: Text, t: Text)
    ensures Encode(s + t) == Encode(s) + Encode(t)
  {
    if s == [] {
      assert s + t == t;
    } else {
      EncodeAppend(s[1..], t);
      var head := EncodeScalar(s[0]);
      assert (s + t)[0] == s[0] && (s + t)[1..] == s[1..] + t;
      Regroup(head, Encode(s[1..]), Encode(t));
    }
  }

  /** One continuation byte, taken or finished. */
  lemma {:induction false} Continue(d: Decoder, b: Byte, rest: seq<Byte>)
    requires d.Valid() && d.left > 0 && d.lower <= b <= d.upper
    ensures var code := d.code * 0x40 + b - 0x80;
            DecodeFrom(d, [b] + rest) ==
            if d.left == 1 then [code] + DecodeFrom(IDLE, rest)
            else DecodeFrom(Decoder(code, d.left - 1, 0x80, 0xBF), rest)
  {
    assert ([b] + rest)[1..] == rest;
  }

  /** A lead byte followed by all its continuation bytes. */
  lemma {:induction false} Begin(b: Byte, rest: seq<Byte>)
    requires Lead(b).left > 0
    ensures Decode([b] + rest) == DecodeFrom(Lead(b), rest)
  {
    assert ([b] + rest)[1..] == rest;
  }

  lemma {:induction false} DecodeTwo(c: Scalar, rest: seq<Byte>)
    requires 0x80 <= c < 0x800
    ensures Decode(EncodeScalar(c) + rest) == [c] + Decode(rest)
  {
    var lead, last := 0xC0 + c / 0x40, 0x80 + c % 0x40;
    assert EncodeScalar(c) + rest == [lead] + ([last] + rest);
    Begin(lead, [last] + rest);
    Continue(Lead(lead), last, rest);
  }

  lemma {:induction false} Digits(c: nat)
    ensures c == c / 0x40 * 0x40 + c % 0x40 && c / 0x40 == c / 0x1000 * 0x40 + c / 0x40 % 0x40
    ensures c / 0x1000 == c / 0x4_0000 * 0x40 + c / 0x1000 % 0x40
  {
  }

  /** The last two continuation bytes. */
  lemma {:induction false} LastTwo(d: Decoder, mid: Byte, last: Byte, rest: seq<Byte>)
    requires d.Valid() && d.left == 2 && d.lower <= mid <= d.upper && 0x80 <= last <= 0xBF
    ensures var c := (d.code * 0x40 + mid - 0x80) * 0x40 + last - 0x80;
            DecodeFrom(d, [mid] + ([last] + rest)) == [c] + Decode(rest)
  {
    Continue(d, mid, [last] + rest);
    Continue(Decoder(d.code * 0x40 + mid - 0x80, 1, 0x80, 0xBF), last, rest);
  }

  lemma {:induction false} DecodeThree(c: Scalar, rest: seq<Byte>)
    requires 0x800 <= c < 0x1_0000
    ensures Decode(EncodeScalar(c) + rest) == [c] + Decode(rest)
  {
    var lead, mid, last := 0xE0 + c / 0x1000, 0x80 + c / 0x40 % 0x40, 0x80 + c % 0x40;
    assert EncodeScalar(c) + rest == [lead] + ([mid] + ([last] + rest));
    Begin(lead, [mid] + ([last] + rest));
    Digits(c);
    LastTwo(Lead(lead), mid, last, rest);
  }

  lemma {:induction false} DecodeFour(c: Scalar, rest: seq<Byte>)
    requires 0x1_0000 <= c
    ensures Decode(EncodeScalar(c) + rest) == [c] + Decode(rest)
  {
    var lead, high, mid, last := 0xF0 + c / 0x4_0000, 0x80 + c / 0x1000 % 0x40, 0x80 + c / 0x40 % 0x40, 0x80 + c % 0x40;
    assert EncodeScalar(c) + rest == [lead] + ([high] + ([mid] + ([last] + rest)));
    Begin(lead, [high] + ([mid] + ([last] + rest)));
    Digits(c);
    Continue(Lead(lead), high, [mid] + ([last] + rest));
    LastTwo(Decoder(c / 0x1000, 2, 0x80, 0xBF), mid, last, rest);
  }

  lemma {:induction false} DecodeScalar(c: Scalar, rest: seq<Byte>)
    ensures Decode(EncodeScalar(c) + rest) == [c] + Decode(rest)
  {
    if c < 0x80 {
      assert ([c] + rest)[1..] == rest;
    } else if c < 0x800 {
      DecodeTwo(c, rest);
    } else if c < 0x1_0000 {
      DecodeThree(c, rest);
    } else {
      DecodeFour(c, rest);
    }
  }

  /** Decoding what was encoded returns it, and goes on with whatever follows. */
  lemma {:induction false} RoundTrip(s: Text, rest: seq<Byte>)
    ensures Decode(Encode(s) + rest) == s + Decode(rest)
  {
    if s == [] {
      assert Encode(s) + rest == rest;
    } else {
      var head, tail := EncodeScalar(s[0]), Encode(s[1..]);
      DecodeScalar(s[0], tail + rest);
      RoundTrip(s[1..], rest);
      assert head + tail + rest == head + (tail + rest);
      FirstAndRest(s, Decode(rest));
    }
  }

  lemma {:induction false} FirstAndRest(s: Text, more: Text)
    requires s != []
    ensures [s[0]] + (s[1..] + more) == s + more
  {
  }

  predicate IsTail(b: Byte) {
    0x80 <= b <= 0xBF
  }

  function Above(b: Byte, base: int): int {
    b - base
  }

  /** The encoding is that of section 3 of RFC 3629: the shortest of four forms, whose digits make up the character. */
  lemma {:induction false} ScalarForms(c: Scalar)
    ensures var e := EncodeScalar(c);
            if c < 0x80 then e == [c]
            else if c < 0x800 then |e| == 2 && 0xC2 <= e[0] <= 0xDF && IsTail(e[1]) && c == Above(e[0], 0xC0) * 0x40 + Above(e[1], 0x80)
            else if c < 0x1_0000 then
              |e| == 3 && 0xE0 <= e[0] <= 0xEF && IsTail(e[1]) && IsTail(e[2]) &&
              c == Above(e[0], 0xE0) * 0x1000 + Above(e[1], 0x80) * 0x40 + Above(e[2], 0x80)
            else
              |e| == 4 && 0xF0 <= e[0] <= 0xF4 && IsTail(e[1]) && IsTail(e[2]) && IsTail(e[3]) &&
              c == Above(e[0], 0xF0) * 0x4_0000 + Above(e[1], 0x80) * 0x1000 + Above(e[2], 0x80) * 0x40 + Above(e[3], 0x80)
  {
    Digits(c);
  }

  /** A byte that cannot start a character is read as U+FFFD, and reading goes on behind it. */
  lemma {:induction false} StrayIsReplaced(b: Byte, rest: seq<Byte>)
    requires 0x80 <= b < 0xC2 || b >= 0xF5
    ensures Decode([b] + rest) == [0xFFFD] + Decode(rest)
  {
    assert ([b] + rest)[1..] == rest;
  }

  /** A character that breaks off is read as one U+FFFD, and the byte behind it is read again. */
  lemma {:induction false} BrokenIsReplaced(d: Decoder, bytes: seq<Byte>)
    requires d.Valid() && d.left > 0 && (bytes == [] || !(d.lower <= bytes[0] <= d.upper))
    ensures DecodeFrom(d, bytes) == [0xFFFD] + Decode(bytes)
  {
  }

  /** So is a character of two or three bytes that is cut off behind its first byte. */
  lemma {:induction false} CutOffIsReplaced(c: Scalar, rest: seq<Byte>)
    requires 0x80 <= c < 0x1_0000 && (rest == [] || rest[0] < 0x80)
    ensures Decode([EncodeScalar(c)[0]] + rest) == [0xFFFD] + Decode(rest)
  {
    Begin(EncodeScalar(c)[0], rest);
    BrokenIsReplaced(Lead(EncodeScalar(c)[0]), rest);
  }
}
