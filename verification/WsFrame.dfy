/**
 WebSocket frames (sections 5.2 and 5.3 of RFC 6455) as the agent's client
 sends and reads them.
 */
module WsFrame {
  import opened Sequences
  import opened Options
  import opened Bits
  import opened Streams

  // The format

  /** The payload combined with the mask key, four bytes at a time. */
  function Masked(payload: seq<Byte>, key: seq<Byte>): (r: seq<Byte>)
    requires |key| == 4
    ensures |r| == |payload| && forall i :: 0 <= i < |payload| ==> r[i] == XorByte(payload[i], key[i % 4])
  {
    seq(|payload|, i requires 0 <= i < |payload| => XorByte(payload[i], key[i % 4]))
  }

  lemma MaskedTwice(payload: seq<Byte>, key: seq<Byte>)
    requires |key| == 4
    ensures Masked(Masked(payload, key), key) == payload
  {
    forall i | 0 <= i < |payload| ensures Masked(Masked(payload, key), key)[i] == payload[i] {
      XorTwice(payload[i], key[i % 4]);
    }
  }

  /** FIN set, no reserved bits, and the low four bits of the opcode. */
  function FirstByte(opcode: Byte): Byte { [true, false, false, false] + opcode[4..] }

  /** The mask bit and a 7-bit length. */
  function SecondByte(len: nat): Byte { [true] + ToBits(len, 7) }

  /** The length in the first form that holds it. */
  function LengthBytes(len: nat): seq<Byte> {
    if len <= 125 then [SecondByte(len)]
    else if len <= 65535 then [SecondByte(126)] + BigEndian(len, 2)
    else [SecondByte(127)] + BigEndian(len, 8)
  }

  function Header(len: nat, opcode: Byte, key: seq<Byte>): seq<Byte> { [FirstByte(opcode)] + LengthBytes(len) + key }

  function Frame(payload: seq<Byte>, opcode: Byte, key: seq<Byte>): seq<Byte>
    requires |key| == 4
  {
    Header(|payload|, opcode, key) + Masked(payload, key)
  }

  /** The length read from the second byte on, and how many bytes it took. */
  datatype Length = Truncated | Length(len: nat, bytes: nat)

  function ParseLength(b: seq<Byte>): (r: Length)
    ensures r.Length? ==> 1 <= r.bytes <= |b|
  {
    if b == [] then Truncated
    else
      var short := Value(b[0][1..]);
      if short == 126 then (if |b| < 3 then Truncated else Length(Number(b[1..3]), 3))
      else if short == 127 then (if |b| < 9 then Truncated else Length(Number(b[1..9]), 9))
      else Length(short, 1)
  }

  datatype Body = NoBody | Body(payload: seq<Byte>, rest: seq<Byte>)

  /** The mask key, if any, and the payload. */
  function ParseBody(b: seq<Byte>, masked: bool, len: nat): Body {
    var k := if masked then 4 else 0;
    if |b| < k || len > MAX_PAYLOAD || |b| < k + len then NoBody
    else Body(if masked then Masked(b[4..4 + len], b[..4]) else b[..len], b[k + len..])
  }

  datatype Parsed = NoFrame | Parsed(payload: seq<Byte>, opcode: Byte, rest: seq<Byte>)

  /** The low four bits of a byte. */
  function Nibble(b: Byte): Byte { Zeros(4) + b[4..] }

  /** What the reader makes of a stream. */
  function Parse(b: seq<Byte>): Parsed {
    if |b| < 2 || !b[0][0] then NoFrame
    else
      var length := ParseLength(b[1..]);
      if length == Truncated then NoFrame
      else
        var body := ParseBody(b[1 + length.bytes..], b[1][0], length.len);
        if body == NoBody then NoFrame else Parsed(body.payload, Nibble(b[0]), body.rest)
  }

  // Round trip

  lemma Powers()
    ensures Pow2(7) == 128 && Pow2(16) == 65536 && Pow2(64) == 0x1_0000_0000_0000_0000
  {
    Pow2Is32();
    Pow2Sum(32, 32);
  }

  lemma ShortLength(len: nat)
    requires len < 128
    ensures Value(SecondByte(len)[1..]) == len
  {
    Powers();
    ValueOfBits(len, 7);
    assert SecondByte(len)[1..] == ToBits(len, 7);
  }

  lemma ParseExtended(short: nat, width: nat, len: nat, rest: seq<Byte>)
    requires (short == 126 && width == 2) || (short == 127 && width == 8)
    requires len < Pow2(8 * width)
    ensures ParseLength([SecondByte(short)] + BigEndian(len, width) + rest) == Length(len, 1 + width)
  {
    var b := [SecondByte(short)] + BigEndian(len, width) + rest;
    ShortLength(short);
    assert b[0] == SecondByte(short) && b[1..1 + width] == BigEndian(len, width);
    NumberOfBigEndian(len, width);
  }

  lemma ParseLengthBytes(len: nat, rest: seq<Byte>)
    requires len < 0x1_0000_0000_0000_0000
    ensures ParseLength(LengthBytes(len) + rest) == Length(len, |LengthBytes(len)|)
  {
    Powers();
    if len <= 125 {
      ShortLength(len);
      assert (LengthBytes(len) + rest)[0] == SecondByte(len);
    } else if len <= 65535 {
      ParseExtended(126, 2, len, rest);
    } else {
      ParseExtended(127, 8, len, rest);
    }
  }

  lemma Pieces(first: Byte, length: seq<Byte>, body: seq<Byte>)
    requires length != []
    ensures var b := [first] + length + body;
            |b| >= 2 && b[0] == first && b[1] == length[0] && b[1..] == length + body && b[1 + |length|..] == body
  {
  }

  lemma BodyPieces(payload: seq<Byte>, key: seq<Byte>, rest: seq<Byte>)
    requires |payload| <= MAX_PAYLOAD && |key| == 4
    ensures ParseBody(key + Masked(payload, key) + rest, true, |payload|) == Body(payload, rest)
  {
    var b, n := key + Masked(payload, key) + rest, |payload|;
    assert b[..4] == key && b[4..4 + n] == Masked(payload, key) && b[4 + n..] == rest;
    MaskedTwice(payload, key);
  }

  /**
   Reading a sent frame gives back the payload and the opcode and leaves the
   bytes behind it, for every mask key, exactly for payloads up to 1 MiB.
   */
  lemma ParseFrame(payload: seq<Byte>, opcode: Byte, key: seq<Byte>, rest: seq<Byte>)
    requires |payload| < 0x1_0000_0000_0000_0000 && |key| == 4
    ensures Parse(Frame(payload, opcode, key) + rest)
            == if |payload| <= 0x10_0000 then Parsed(payload, Nibble(opcode), rest) else NoFrame
  {
    var length, body := LengthBytes(|payload|), key + Masked(payload, key) + rest;
    assert Frame(payload, opcode, key) + rest == [FirstByte(opcode)] + length + body;
    Pieces(FirstByte(opcode), length, body);
    ParseLengthBytes(|payload|, body);
    if |payload| <= MAX_PAYLOAD { BodyPieces(payload, key, rest); }
    assert FirstByte(opcode)[4..] == opcode[4..];
  }

  lemma FirstByteValue(opcode: Byte)
    ensures Value(FirstByte(opcode)) == 128 + Value(opcode[4..])
  {
    var mark := [true, false, false, false];
    ValueConcat(mark, opcode[4..]);
    assert mark[..3] == [true, false, false] && mark[..3][..2] == [true, false] && [true, false][..1] == [true];
    assert Value([true]) == 1 && Value([true, false]) == 2 && Value([true, false, false]) == 4 && Value(mark) == 8;
    assert Pow2(4) == 16;
  }

  lemma SecondByteValue(len: nat)
    requires len < 128
    ensures Value(SecondByte(len)) == 128 + len
  {
    Powers();
    ValueConcat([true], ToBits(len, 7));
    ValueOfBits(len, 7);
    assert [true][..0] == [] && Value([true]) == 1;
  }

  /** The size of the length field for a payload of `n` bytes. */
  function LengthSize(n: nat): nat { if n < 126 then 1 else if n < 65536 then 3 else 9 }

  lemma LengthLayout(n: nat)
    requires n < 0x1_0000_0000_0000_0000
    ensures var b := LengthBytes(n);
            && |b| == LengthSize(n)
            && Value(b[0]) == 128 + (if n < 126 then n else if n < 65536 then 126 else 127)
            && (n >= 126 ==> Number(b[1..]) == n)
  {
    var width := if n < 65536 then 2 else 8;
    Powers();
    SecondByteValue(if n < 126 then n else if n < 65536 then 126 else 127);
    if n >= 126 {
      NumberOfBigEndian(n, width);
      assert LengthBytes(n)[1..] == BigEndian(n, width);
    }
  }

  lemma FramePieces(first: Byte, length: seq<Byte>, key: seq<Byte>, body: seq<Byte>)
    requires |key| == 4
    ensures var b, k := [first] + length + key + body, 1 + |length|;
            |b| == k + 4 + |body| && b[0] == first && b[1..k] == length && b[k..k + 4] == key && b[k + 4..] == body
  {
  }

  /**
   The layout of section 5.2 of RFC 6455: the final frame of a message, a masked
   payload, its length in 7 bits, or 126 and 16 bits, or 127 and 64 bits, then the
   mask key.
   */
  lemma FrameLayout(payload: seq<Byte>, opcode: Byte, key: seq<Byte>)
    requires |payload| < 0x1_0000_0000_0000_0000 && |key| == 4
    ensures var b, n, k := Frame(payload, opcode, key), |payload|, 1 + LengthSize(|payload|);
            && |b| == k + 4 + n && Value(b[0]) == 128 + Value(opcode[4..])
            && Value(b[1]) == 128 + (if n < 126 then n else if n < 65536 then 126 else 127)
            && (n >= 126 ==> Number(b[2..k]) == n)
            && b[k..k + 4] == key && b[k + 4..] == Masked(payload, key)
  {
    var b, length, n := Frame(payload, opcode, key), LengthBytes(|payload|), |payload|;
    FirstByteValue(opcode);
    LengthLayout(n);
    FramePieces(FirstByte(opcode), length, key, Masked(payload, key));
    assert b[1] == b[1..1 + |length|][0];
    if n >= 126 { assert b[2..1 + |length|] == length[1..]; }
  }

  /** An opcode below 16 is its own low nibble. */
  lemma SmallOpcode(opcode: Byte)
    requires opcode[..4] == Zeros(4)
    ensures Nibble(opcode) == opcode
  {
  }

  lemma LengthForms(b: seq<Byte>)
    requires ParseLength(b).Length?
    ensures ParseLength(b).bytes >= |LengthBytes(ParseLength(b).len)|
  {
    Powers();
    ValueBound(b[0][1..]);
    if ParseLength(b).bytes == 3 { ValueBound(Joined(b[1..3])); }
  }

  /** No masked frame the reader accepts carries the same payload in fewer bytes. */
  lemma ShortestForm(b: seq<Byte>, opcode: Byte, key: seq<Byte>)
    requires Parse(b).Parsed? && b[1][0] && |key| == 4
    ensures |b| - |Parse(b).rest| >= |Frame(Parse(b).payload, opcode, key)|
  {
    LengthForms(b[1..]);
  }

  // The code

  lemma MarkBit()
    ensures ToBits(0x80, 8) == [true] + Zeros(7)
  {
    assert ToBits(0x80, 8) == [true, false, false, false, false, false, false, false];
  }

  lemma LowFour()
    ensures ToBits(0x0F, 8) == Zeros(4) + [true, true, true, true]
  {
  }

  lemma LowSeven()
    ensures ToBits(0x7F, 8) == [false, true, true, true, true, true, true, true]
  {
  }

  lemma FirstByteIs(opcode: Byte)
    ensures OrByte(ToBits(0x80, 8), AndByte(opcode, ToBits(0x0F, 8))) == FirstByte(opcode)
  {
    MarkBit();
    LowFour();
    MarkNibble(ToBits(0x80, 8), ToBits(0x0F, 8), opcode);
  }

  lemma MarkNibble(mark: Byte, mask: Byte, opcode: Byte)
    requires mark == [true] + Zeros(7) && mask == Zeros(4) + [true, true, true, true]
    ensures OrByte(mark, AndByte(opcode, mask)) == FirstByte(opcode)
  {
  }

  lemma SecondByteIs(len: nat)
    ensures OrByte(ToBits(0x80, 8), ToBits(len, 8)) == SecondByte(len)
  {
    MarkBit();
    SplitAt(len, 1, 7);
    MarkLength(ToBits(0x80, 8), ToBits(Halve(len, 7), 1), ToBits(len, 7));
  }

  lemma MarkLength(mark: Byte, top: Bits, low: Bits)
    requires mark == [true] + Zeros(7) && |top| == 1 && |low| == 7
    ensures OrByte(mark, top + low) == [true] + low
  {
  }

  lemma ShortLengthIs(b: Byte)
    ensures Value(AndByte(b, ToBits(0x7F, 8))) == Value(b[1..])
  {
    LowSeven();
    ClearMark(b, ToBits(0x7F, 8));
    LeadingZero(b[1..]);
  }

  lemma ClearMark(b: Byte, mask: Byte)
    requires mask == [false, true, true, true, true, true, true, true]
    ensures AndByte(b, mask) == [false] + b[1..]
  {
  }

  method MaskPayload(payload: seq<Byte>, key: seq<Byte>) returns (r: seq<Byte>)
    requires |key| == 4
    ensures r == Masked(payload, key)
  {
    r := payload;
    ghost var goal := Masked(payload, key);
    for i := 0 to |payload|
      invariant |r| == |payload|
      invariant forall k :: 0 <= k < i ==> r[k] == goal[k]
      invariant forall k :: i <= k < |r| ==> r[k] == payload[k]
    {
      r := r[i := XorByte(r[i], key[i % 4])];
    }
  }

  method SendWsFrame(s: Stream, payload: seq<Byte>, opcode: Byte, key: seq<Byte>) returns (ok: bool)
    requires |key| == 4 && |payload| < 0x1_0000_0000_0000_0000
    modifies s
    ensures ok ==> s.bytes == old(s.bytes) + Frame(payload, opcode, key)
    ensures !ok ==> !Quiet(old(s.schedule))
    ensures Quiet(old(s.schedule)) ==> Quiet(s.schedule)
  {
    FirstByteIs(opcode);
    var header := [OrByte(ToBits(0x80, 8), AndByte(opcode, ToBits(0x0F, 8)))];
    if |payload| <= 125 {
      SecondByteIs(|payload|);
      header := header + [OrByte(ToBits(0x80, 8), ToBits(|payload|, 8))];
    } else if |payload| <= 0xFFFF {
      SecondByteIs(126);
      header := header + ([OrByte(ToBits(0x80, 8), ToBits(126, 8))] + BigEndian(|payload|, 2));
    } else {
      SecondByteIs(127);
      header := header + ([OrByte(ToBits(0x80, 8), ToBits(127, 8))] + BigEndian(|payload|, 8));
    }
    header := header + key;
    assert header == Header(|payload|, opcode, key);
    var masked := MaskPayload(payload, key);
    Assoc(s.bytes, header, masked);
    ok := s.WriteExact(header);
    if ok { ok := s.WriteExact(masked); }
  }

  /** The extended length, if the short one says there is one. */
  method ReadLength(s: Stream, second: Byte) returns (len: Option<nat>)
    modifies s
    ensures len.Some? ==>
              && ParseLength([second] + old(s.bytes)).Length?
              && len.value == ParseLength([second] + old(s.bytes)).len
              && ParseLength([second] + old(s.bytes)).bytes <= 1 + |old(s.bytes)|
              && s.bytes == old(s.bytes)[ParseLength([second] + old(s.bytes)).bytes - 1..]
    ensures len.None? ==> ParseLength([second] + old(s.bytes)) == Truncated || !Quiet(old(s.schedule))
    ensures Quiet(old(s.schedule)) ==> Quiet(s.schedule)
  {
    ghost var all := [second] + s.bytes;
    ShortLengthIs(second);
    var short := Value(AndByte(second, ToBits(0x7F, 8)));
    if short != 126 && short != 127 { return Some(short); }
    var width := if short == 126 then 2 else 8;
    var ext := s.ReadExact(width);
    if ext.None? { return None; }
    assert all[1..1 + width] == ext.value;
    return Some(Number(ext.value));
  }

  method ReadKey(s: Stream, masked: bool) returns (key: Option<seq<Byte>>)
    modifies s
    ensures key.Some? ==> |key.value| == 4 && (if masked then key.value else []) + s.bytes == old(s.bytes)
    ensures key.None? ==> masked && (|old(s.bytes)| < 4 || !Quiet(old(s.schedule)))
    ensures Quiet(old(s.schedule)) ==> Quiet(s.schedule)
  {
    if !masked {
      var zeros: seq<Byte> := [ToBits(0, 8), ToBits(0, 8), ToBits(0, 8), ToBits(0, 8)];
      return Some(zeros);
    }
    key := s.ReadExact(4);
  }

  method ReadBody(s: Stream, masked: bool, len: nat) returns (payload: Option<seq<Byte>>)
    modifies s
    ensures payload.Some? ==> ParseBody(old(s.bytes), masked, len) == Body(payload.value, s.bytes)
    ensures payload.None? ==> ParseBody(old(s.bytes), masked, len) == NoBody || !Quiet(old(s.schedule))
    ensures Quiet(old(s.schedule)) ==> Quiet(s.schedule)
  {
    ghost var all := s.bytes;
    var key := ReadKey(s, masked);
    if key.None? { return None; }
    ghost var k := if masked then 4 else 0;
    assert s.bytes == all[k..];
    if len > MAX_PAYLOAD { return None; }
    var data := s.ReadExact(len);
    if data.None? { return None; }
    assert data.value == all[k..k + len] && s.bytes == all[k + len..];
    if !masked { return data; }
    assert key.value == all[..4];
    var plain := MaskPayload(data.value, key.value);
    return Some(plain);
  }

  lemma NibbleIs(b: Byte)
    ensures AndByte(b, ToBits(0x0F, 8)) == Nibble(b)
  {
  }

  lemma HeadSplit(head: seq<Byte>, rest: seq<Byte>)
    requires |head| == 2
    ensures (head + rest)[0] == head[0] && (head + rest)[1] == head[1] && (head + rest)[1..] == [head[1]] + rest
  {
  }

  lemma TailSplit(head: seq<Byte>, rest: seq<Byte>, n: nat)
    requires |head| == 2 && 1 <= n <= 1 + |rest|
    ensures (head + rest)[1 + n..] == rest[n - 1..]
  {
  }

  /** What is read is what the stream parses to; a refusal means it parses to nothing or a call failed. */
  method ReadWsFrame(s: Stream) returns (ok: bool, payload: seq<Byte>, opcode: Byte)
    modifies s
    ensures ok ==> Parse(old(s.bytes)) == Parsed(payload, opcode, s.bytes)
    ensures !ok ==> Parse(old(s.bytes)) == NoFrame || !Quiet(old(s.schedule))
    ensures Quiet(old(s.schedule)) ==> Quiet(s.schedule)
  {
    ghost var all := s.bytes;
    ok, payload, opcode := false, [], ToBits(0, 8);
    var head := s.ReadExact(2);
    if head.None? { return; }
    ghost var rest := s.bytes;
    HeadSplit(head.value, rest);
    if !head.value[0][0] { return; }
    var len := ReadLength(s, head.value[1]);
    if len.None? { return; }
    TailSplit(head.value, rest, ParseLength(all[1..]).bytes);
    var data := ReadBody(s, head.value[1][0], len.value);
    if data.None? { return; }
    NibbleIs(head.value[0]);
    ok, payload, opcode := true, data.value, AndByte(head.value[0], ToBits(0x0F, 8));
  }

  // Whole conversations

  datatype Message = Message(payload: seq<Byte>, opcode: Byte, key: seq<Byte>)

  const EMPTY_MESSAGE := Message([], Zeros(8), [Zeros(8), Zeros(8), Zeros(8), Zeros(8)])

  /** What `SendWsFrame` is given, with an opcode below 16, and the mask key it draws. */
  type Outgoing = m: Message | |m.payload| <= MAX_PAYLOAD && |m.key| == 4 && m.opcode[..4] == Zeros(4)
    witness EMPTY_MESSAGE

  function FrameOf(m: Outgoing): seq<Byte> { Frame(m.payload, m.opcode, m.key) }

  function Frames(ms: seq<Outgoing>): seq<Byte> { if ms == [] then [] else FrameOf(ms[0]) + Frames(ms[1..]) }

  function Contents(ms: seq<Outgoing>): seq<(seq<Byte>, Byte)> {
    if ms == [] then [] else [(ms[0].payload, ms[0].opcode)] + Contents(ms[1..])
  }

  method SendAll(s: Stream, ms: seq<Outgoing>)
    requires Quiet(s.schedule)
    modifies s
    ensures s.bytes == old(s.bytes) + Frames(ms) && Quiet(s.schedule)
  {
    if ms == [] { return; }
    var ok := SendWsFrame(s, ms[0].payload, ms[0].opcode, ms[0].key);
    Assoc(old(s.bytes), FrameOf(ms[0]), Frames(ms[1..]));
    SendAll(s, ms[1..]);
  }

  /** Reads one frame off a stream that begins with one. */
  method ReadOne(s: Stream, ghost m: Outgoing, ghost rest: seq<Byte>) returns (payload: seq<Byte>, opcode: Byte)
    requires Quiet(s.schedule) && s.bytes == FrameOf(m) + rest
    modifies s
    ensures payload == m.payload && opcode == m.opcode && s.bytes == rest && Quiet(s.schedule)
  {
    ParseFrame(m.payload, m.opcode, m.key, rest);
    SmallOpcode(m.opcode);
    var ok;
    ok, payload, opcode := ReadWsFrame(s);
  }

  method ReadAll(s: Stream, n: nat, ghost ms: seq<Outgoing>, ghost rest: seq<Byte>)
    returns (got: seq<(seq<Byte>, Byte)>)
    requires Quiet(s.schedule) && s.bytes == Frames(ms) + rest && n == |ms|
    modifies s
    ensures got == Contents(ms) && s.bytes == rest
    decreases n
  {
    if n == 0 { return []; }
    Assoc(FrameOf(ms[0]), Frames(ms[1..]), rest);
    var payload, opcode := ReadOne(s, ms[0], Frames(ms[1..]) + rest);
    var more := ReadAll(s, n - 1, ms[1..], rest);
    return [(payload, opcode)] + more;
  }

  /**
   Messages of up to 1 MiB sent with any short writes and read with any short
   reads come back with their payloads and opcodes, whatever the mask keys, and
   what the stream holds behind them stays.
   */
  method RoundTrip(ms: seq<Outgoing>, rest: seq<Byte>, writing: seq<Io>, reading: seq<Io>)
    returns (got: seq<(seq<Byte>, Byte)>, left: seq<Byte>)
    requires Quiet(writing) && Quiet(reading)
    ensures got == Contents(ms) && left == rest
  {
    var s := new Stream([], writing);
    SendAll(s, ms);
    assert s.bytes == Frames(ms);
    s.schedule, s.bytes := reading, s.bytes + rest;
    got := ReadAll(s, |ms|, ms, rest);
    left := s.bytes;
  }
}
