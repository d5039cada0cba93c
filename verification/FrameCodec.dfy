/**
 The response frame: a 64-byte header (success flag, then the message id in UTF-8, padded with NUL bytes) and the
 payload behind it. `BuildFrame` is the writing side, `DecodeFrame` the reading side.
 */
module FrameCodec {
  import opened Wrappers
  import opened Utf8

  const MAX_HEADER_LEN := 64

  datatype Frame = Frame(success: bool, msgId: Text, payload: seq<Byte>)

  function Zeros(n: nat): (z: seq<Byte>)
    ensures |z| == n
  {
    seq(n, _ => 0)
  }

  /** What a buffer write of `s` into `room` bytes keeps: whole characters only, until one does not fit. */
  function Fit(s: Text, room: nat): Text {
    if s == [] || |EncodeScalar(s[0])| > room then []
    else [s[0]] + Fit(s[1..], room - |EncodeScalar(s[0])|)
  }

  lemma {:induction false} FitWithin(s: Text, room: nat)
    ensures Fit(s, room) <= s && |Encode(Fit(s, room))| <= room
  {
    if s != [] && |EncodeScalar(s[0])| <= room {
      FitWithin(s[1..], room - |EncodeScalar(s[0])|);
      assert Fit(s, room)[1..] == Fit(s[1..], room - |EncodeScalar(s[0])|);
    }
  }

  function StripNul(t: Text): (r: Text)
    ensures 0 !in r
  {
    if t == [] then [] else (if t[0] == 0 then [] else [t[0]]) + StripNul(t[1..])
  }

  function EncodeHeader(success: bool, msgId: Text): (h: seq<Byte>)
    ensures |h| == MAX_HEADER_LEN
  {
    FitWithin(msgId, MAX_HEADER_LEN - 1);
    var id := Encode(Fit(msgId, MAX_HEADER_LEN - 1));
    [if success then 1 else 0] + id + Zeros(MAX_HEADER_LEN - 1 - |id|)
  }

  function EncodeFrame(success: bool, msgId: Text, payload: seq<Byte>): seq<Byte> {
    EncodeHeader(success, msgId) + payload
  }

  /** The reader drops a message shorter than a header. */
  function DecodeFrame(data: seq<Byte>): Option<Frame> {
    if |data| < MAX_HEADER_LEN then None
    else Some(Frame(data[0] != 0, StripNul(Decode(data[1..MAX_HEADER_LEN])), data[MAX_HEADER_LEN..]))
  }

  /** An id that a header can carry: UUID text always qualifies. */
  predicate Plain(msgId: Text) {
    0 !in msgId && |Encode(msgId)| < MAX_HEADER_LEN
  }

  // ---- writing into the header buffer ----

  /** `now` is `was` with `bytes` written over it at `at`. */
  ghost predicate Written(now: seq<Byte>, was: seq<Byte>, at: nat, bytes: seq<Byte>) {
    at + |bytes| <= |was| && now == was[..at] + bytes + was[at + |bytes|..]
  }

  lemma {:induction false} WrittenStep(next: seq<Byte>, now: seq<Byte>, was: seq<Byte>, at: nat, bytes: seq<Byte>,
                                       more: seq<Byte>)
    requires Written(now, was, at, bytes) && Written(next, now, at + |bytes|, more)
    ensures Written(next, was, at, bytes + more)
  {
    var end := at + |bytes|;
    assert now[..end] == was[..at] + bytes;
    assert now[end + |more|..] == was[end + |more|..];
  }

  method PutBytes(buffer: array<Byte>, at: nat, bytes: seq<Byte>)
    requires at + |bytes| <= buffer.Length
    modifies buffer
    ensures Written(buffer[..], old(buffer[..]), at, bytes)
  {
    forall k | 0 <= k < |bytes| {
      buffer[at + k] := bytes[k];
    }
  }

  lemma {:induction false} EncodeStep(text: Text, i: nat)
    requires i < |text|
    ensures Encode(text[..i + 1]) == Encode(text[..i]) + EncodeScalar(text[i])
  {
    assert text[..i + 1] == text[..i] + [text[i]];
    EncodeAppend(text[..i], [text[i]]);
    assert Encode([text[i]]) == EncodeScalar(text[i]) + Encode([]);
  }

  /** What fits is the longest beginning of the text that does. */
  lemma {:induction false} FitAt(text: Text, i: nat, room: nat)
    requires i <= |text| && |Encode(text[..i])| <= room
    requires i < |text| ==> |Encode(text[..i])| + |EncodeScalar(text[i])| > room
    ensures Fit(text, room) == text[..i]
    decreases i
  {
    if i > 0 {
      var rest := text[1..];
      assert text[..i][1..] == rest[..i - 1] && text[..i] == [text[0]] + rest[..i - 1];
      assert Encode(text[..i]) == EncodeScalar(text[0]) + Encode(rest[..i - 1]);
      FitAt(rest, i - 1, room - |EncodeScalar(text[0])|);
    }
  }

  method PutMore(buffer: array<Byte>, at: nat, bytes: seq<Byte>, ghost was: seq<Byte>, ghost start: nat, ghost done: seq<Byte>)
    requires Written(buffer[..], was, start, done) && at == start + |done| && at + |bytes| <= buffer.Length
    modifies buffer
    ensures Written(buffer[..], was, start, done + bytes)
  {
    ghost var now := buffer[..];
    PutBytes(buffer, at, bytes);
    WrittenStep(buffer[..], now, was, start, done, bytes);
  }

  /** `buffer.write(text, at, "utf-8")`. */
  method WriteText(buffer: array<Byte>, at: nat, text: Text)
    requires at <= buffer.Length
    modifies buffer
    ensures Written(buffer[..], old(buffer[..]), at, Encode(Fit(text, buffer.Length - at)))
  {
    var i, end := 0, at;
    ghost var was, done := buffer[..], [];
    assert Written(buffer[..], was, at, done) && done == Encode(text[..0]);
    while i < |text| && end + |EncodeScalar(text[i])| <= buffer.Length
      invariant i <= |text| && end == at + |done| <= buffer.Length
      invariant done == Encode(text[..i])
      invariant Written(buffer[..], was, at, done)
    {
      EncodeStep(text, i);
      var bytes := EncodeScalar(text[i]);
      PutMore(buffer, end, bytes, was, at, done);
      i, end, done := i + 1, end + |bytes|, done + bytes;
    }
    FitAt(text, i, buffer.Length - at);
  }

  /** Allocates and fills the header, then appends the payload. */
  method BuildFrame(success: bool, msgId: Text, payload: seq<Byte>) returns (frame: seq<Byte>)
    ensures frame == EncodeFrame(success, msgId, payload)
  {
    var header := new Byte[MAX_HEADER_LEN](_ => 0);
    header[0] := if success then 1 else 0;
    WriteText(header, 1, msgId);
    ghost var id := Encode(Fit(msgId, MAX_HEADER_LEN - 1));
    assert header[..] == EncodeHeader(success, msgId);
    frame := header[..] + payload;
  }

  // ---- round trip ----

  lemma {:induction false} FitIsLongest(s: Text, room: nat, t: Text)
    requires t <= s && |Encode(t)| <= room
    ensures t <= Fit(s, room)
  {
    if t != [] {
      assert Encode(t) == EncodeScalar(s[0]) + Encode(t[1..]);
      FitIsLongest(s[1..], room - |EncodeScalar(s[0])|, t[1..]);
      assert Fit(s, room)[1..] == Fit(s[1..], room - |EncodeScalar(s[0])|);
    }
  }

  lemma {:induction false} StripNulFirst(s: Text)
    requires s != []
    ensures StripNul(s) == (if s[0] == 0 then [] else [s[0]]) + StripNul(s[1..])
  {
  }

  lemma {:induction false} StripNulAppend(s: Text, t: Text)
    ensures StripNul(s + t) == StripNul(s) + StripNul(t)
  {
    if s == [] {
      assert s + t == t;
    } else {
      assert (s + t)[1..] == s[1..] + t;
      StripNulAppend(s[1..], t);
      StripNulFirst(s);
      StripNulFirst(s + t);
    }
  }

  lemma {:induction false} StripNulId(t: Text)
    ensures StripNul(t) == t <==> 0 !in t
  {
    if t != [] {
      StripNulId(t[1..]);
      StripNulShrinks(t[1..]);
      assert t == [t[0]] + t[1..];
      if t[0] == 0 {
        assert |StripNul(t)| < |t|;
      }
    }
  }

  lemma {:induction false} StripNulShrinks(t: Text)
    ensures |StripNul(t)| <= |t|
  {
    if t != [] {
      StripNulShrinks(t[1..]);
    }
  }

  lemma {:induction false} ZerosDecodeToNothing(n: nat)
    ensures StripNul(Decode(Zeros(n))) == []
  {
    if n > 0 {
      ZerosDecodeToNothing(n - 1);
      assert Zeros(n)[1..] == Zeros(n - 1);
      StripNulAppend([0], Decode(Zeros(n - 1)));
    }
  }

  /** What comes back for any id at all: NULs vanish, and whatever did not fit. */
  lemma {:induction false} DecodeEncode(success: bool, msgId: Text, payload: seq<Byte>)
    ensures DecodeFrame(EncodeFrame(success, msgId, payload))
         == Some(Frame(success, StripNul(Fit(msgId, MAX_HEADER_LEN - 1)), payload))
  {
    var frame := EncodeFrame(success, msgId, payload);
    var fit := Fit(msgId, MAX_HEADER_LEN - 1);
    var pad := MAX_HEADER_LEN - 1 - |Encode(fit)|;
    assert frame[1..MAX_HEADER_LEN] == Encode(fit) + Zeros(pad);
    RoundTrip(fit, Zeros(pad));
    StripNulAppend(fit, Decode(Zeros(pad)));
    ZerosDecodeToNothing(pad);
    assert StripNul(fit) + [] == StripNul(fit);
    assert frame[MAX_HEADER_LEN..] == payload;
  }

  /** The exact range of the round trip. */
  lemma {:induction false} RoundTripIffPlain(success: bool, msgId: Text, payload: seq<Byte>)
    ensures DecodeFrame(EncodeFrame(success, msgId, payload)) == Some(Frame(success, msgId, payload)) <==> Plain(msgId)
  {
    DecodeEncode(success, msgId, payload);
    var fit := Fit(msgId, MAX_HEADER_LEN - 1);
    StripNulShrinks(fit);
    FitWithin(msgId, MAX_HEADER_LEN - 1);
    if Plain(msgId) {
      FitIsLongest(msgId, MAX_HEADER_LEN - 1, msgId);
      assert fit == msgId;
      StripNulId(msgId);
    }
    if StripNul(fit) == msgId {
      assert fit == msgId;
      StripNulId(msgId);
    }
  }

  lemma {:induction false} EncodeInjective(a: Frame, b: Frame)
    requires Plain(a.msgId) && Plain(b.msgId)
    requires EncodeFrame(a.success, a.msgId, a.payload) == EncodeFrame(b.success, b.msgId, b.payload)
    ensures a == b
  {
    RoundTripIffPlain(a.success, a.msgId, a.payload);
    RoundTripIffPlain(b.success, b.msgId, b.payload);
  }

  /** A NUL-free id that is too long comes back as a strict prefix: the longest one that fits. */
  lemma {:induction false} LongIdTruncates(success: bool, msgId: Text, payload: seq<Byte>)
    requires 0 !in msgId && |Encode(msgId)| >= MAX_HEADER_LEN
    ensures var d := DecodeFrame(EncodeFrame(success, msgId, payload));
            d.Some? && d.value.msgId < msgId && |Encode(d.value.msgId)| < MAX_HEADER_LEN
            && forall t: Text :: t <= msgId && |Encode(t)| < MAX_HEADER_LEN ==> t <= d.value.msgId
  {
    DecodeEncode(success, msgId, payload);
    var fit := Fit(msgId, MAX_HEADER_LEN - 1);
    FitWithin(msgId, MAX_HEADER_LEN - 1);
    assert 0 !in fit && fit != msgId;
    StripNulId(fit);
    forall t: Text | t <= msgId && |Encode(t)| < MAX_HEADER_LEN
      ensures t <= fit
    {
      FitIsLongest(msgId, MAX_HEADER_LEN - 1, t);
    }
  }

  /** ASCII text is written as it is. Without NUL and with at most 63 characters it is plain, UUID text (section 4 of
      RFC 9562) for one. */
  lemma {:induction false} AsciiIsPlain(id: Text)
    requires forall c :: c in id ==> 0 < c < 0x80
    ensures |Encode(id)| == |id| && forall k :: 0 <= k < |id| ==> Encode(id)[k] == id[k]
    ensures |id| < MAX_HEADER_LEN ==> Plain(id)
  {
    if id != [] {
      assert forall c :: c in id[1..] ==> c in id;
      AsciiIsPlain(id[1..]);
      assert id[0] in id;
    }
  }

  /** What is on the wire for an id that fits: the flag, the id in UTF-8, NULs up to 64 bytes, and the payload. */
  lemma {:induction false} WireLayout(success: bool, msgId: Text, payload: seq<Byte>)
    requires |Encode(msgId)| < 64
    ensures var frame, n := EncodeFrame(success, msgId, payload), |Encode(msgId)|;
            |frame| == 64 + |payload| && frame[0] == (if success then 1 else 0) && frame[1..n + 1] == Encode(msgId) &&
            (forall i :: n < i < 64 ==> frame[i] == 0) && frame[64..] == payload
  {
    FitWithin(msgId, 63);
    FitIsLongest(msgId, 63, msgId);
    assert Fit(msgId, 63) == msgId;
    assert EncodeHeader(success, msgId)[1..|Encode(msgId)| + 1] == Encode(msgId);
  }
}
