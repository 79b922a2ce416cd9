/**
 The frames on the Unix socket between agent and daemon: a four-byte length in
 network order, then the payload.
 */
module SocketFrame {
  import opened Sequences
  import opened Options
  import opened Bits
  import opened Streams

  const NUL: Byte := ToBits(0, 8)

  function Frame(payload: seq<Byte>): seq<Byte> { BigEndian(|payload|, 4) + payload }

  predicate Framable(payload: seq<Byte>) { 1 <= |payload| <= MAX_PAYLOAD }

  datatype Parsed = NoFrame | Parsed(payload: seq<Byte>, rest: seq<Byte>)

  /** What a reader makes of a stream: one frame and the rest, or nothing. */
  function Parse(bytes: seq<Byte>): Parsed {
    if |bytes| < 4 then NoFrame
    else
      var len := Number(bytes[..4]);
      if len == 0 || len > MAX_PAYLOAD || |bytes| < 4 + len then NoFrame
      else Parsed(bytes[4..4 + len], bytes[4 + len..])
  }

  lemma LengthFits(n: nat)
    requires n < 0x1_0000_0000
    ensures Number(BigEndian(n, 4)) == n
  {
    Pow2Is32();
    NumberOfBigEndian(n, 4);
  }

  /** A frame parses to its payload and leaves what follows, exactly for payloads of 1 byte to 1 MiB. */
  lemma ParseFrame(payload: seq<Byte>, rest: seq<Byte>)
    requires |payload| < 0x1_0000_0000
    ensures Parse(Frame(payload) + rest) == if 1 <= |payload| <= 0x10_0000 then Parsed(payload, rest) else NoFrame
  {
    var b := Frame(payload) + rest;
    assert b[..4] == BigEndian(|payload|, 4);
    LengthFits(|payload|);
    assert b[4..4 + |payload|] == payload && b[4 + |payload|..] == rest;
  }

  function Frames(payloads: seq<seq<Byte>>): seq<Byte> {
    if payloads == [] then [] else Frame(payloads[0]) + Frames(payloads[1..])
  }

  lemma {:induction false} FramesSnoc(payloads: seq<seq<Byte>>, p: seq<Byte>)
    ensures Frames(payloads + [p]) == Frames(payloads) + Frame(p)
  {
    if payloads == [] {
      assert [p][1..] == [] && payloads + [p] == [p];
    } else {
      FramesSnoc(payloads[1..], p);
      assert (payloads + [p])[1..] == payloads[1..] + [p] && (payloads + [p])[0] == payloads[0];
    }
  }

  // Writers

  /** `WriteFrame`, in the agent. */
  method WriteFrame(s: Stream, payload: seq<Byte>) returns (ok: bool)
    modifies s
    ensures ok ==> s.bytes == old(s.bytes) + Frame(payload)
    ensures !ok ==> !Smooth(old(s.schedule))
    ensures Smooth(old(s.schedule)) ==> Smooth(s.schedule)
  {
    Assoc(s.bytes, BigEndian(|payload|, 4), payload);
    ok := s.WriteFull(BigEndian(|payload|, 4));
    if !ok { return; }
    if payload == [] { return; }
    ok := s.WriteFull(payload);
  }

  /** `send_frame`, in the daemon: the length is the string's, so a NUL would cut it. */
  method SendFrame(s: Stream, payload: seq<Byte>) returns (ok: bool)
    modifies s
    ensures ok ==> s.bytes == old(s.bytes) + Frame(CString(payload, NUL))
    ensures !ok ==> !Smooth(old(s.schedule))
    ensures Smooth(old(s.schedule)) ==> Smooth(s.schedule)
  {
    ok := WriteFrame(s, CString(payload, NUL));
  }

  // Readers

  /**
   `ReadFrame` and `read_frame`.  What is read is what the stream parses to; a
   refusal means the stream parses to nothing or a system call failed.
   */
  method ReadFrame(s: Stream) returns (payload: Option<seq<Byte>>)
    modifies s
    ensures payload.Some? ==> Parse(old(s.bytes)) == Parsed(payload.value, s.bytes)
    ensures payload.None? ==> Parse(old(s.bytes)) == NoFrame || !Smooth(old(s.schedule))
    ensures Smooth(old(s.schedule)) ==> Smooth(s.schedule)
  {
    ghost var all := s.bytes;
    var head := s.ReadFull(4);
    if head.None? { return None; }
    assert all[..4] == head.value && all[4..] == s.bytes;
    var len := Number(head.value);
    if len == 0 || len > MAX_PAYLOAD { return None; }
    payload := s.ReadFull(len);
    if payload.Some? {
      assert all[4..4 + len] == payload.value && all[4 + len..] == s.bytes;
    }
  }

  // Whole conversations

  lemma FramesStep(start: seq<Byte>, payloads: seq<seq<Byte>>, i: nat)
    requires i < |payloads|
    ensures start + Frames(payloads[..i]) + Frame(payloads[i]) == start + Frames(payloads[..i + 1])
  {
    FramesSnoc(payloads[..i], payloads[i]);
    assert payloads[..i + 1] == payloads[..i] + [payloads[i]];
    Assoc(start, Frames(payloads[..i]), Frame(payloads[i]));
  }

  /** Writes one frame with the agent's or the daemon's writer. */
  method WriteOne(s: Stream, payload: seq<Byte>, daemon: bool)
    requires Smooth(s.schedule) && (daemon ==> NUL !in payload)
    modifies s
    ensures s.bytes == old(s.bytes) + Frame(payload) && Smooth(s.schedule)
  {
    var ok;
    if daemon {
      CStringWhole(payload, NUL);
      ok := SendFrame(s, payload);
    } else {
      ok := WriteFrame(s, payload);
    }
  }

  /** Writes the payloads as frames, one after another. */
  method WriteAll(s: Stream, payloads: seq<seq<Byte>>, daemon: bool)
    requires Smooth(s.schedule)
    requires daemon ==> forall i :: 0 <= i < |payloads| ==> NUL !in payloads[i]
    modifies s
    ensures s.bytes == old(s.bytes) + Frames(payloads) && Smooth(s.schedule)
  {
    for i := 0 to |payloads|
      invariant s.bytes == old(s.bytes) + Frames(payloads[..i]) && Smooth(s.schedule)
    {
      WriteOne(s, payloads[i], daemon);
      FramesStep(old(s.bytes), payloads, i);
    }
    assert payloads[..|payloads|] == payloads;
  }

  /** Reads `n` frames; on a stream that begins with `n` frames it reads back exactly those. */
  method ReadAll(s: Stream, n: nat, ghost payloads: seq<seq<Byte>>, ghost rest: seq<Byte>) returns (got: seq<seq<Byte>>)
    requires Smooth(s.schedule) && s.bytes == Frames(payloads) + rest && n == |payloads|
    requires forall i :: 0 <= i < |payloads| ==> Framable(payloads[i])
    modifies s
    ensures got == payloads && s.bytes == rest
  {
    got := [];
    for i := 0 to n
      invariant got == payloads[..i] && s.bytes == Frames(payloads[i..]) + rest && Smooth(s.schedule)
    {
      assert payloads[i..][1..] == payloads[i + 1..];
      Assoc(Frame(payloads[i]), Frames(payloads[i + 1..]), rest);
      ParseFrame(payloads[i], Frames(payloads[i + 1..]) + rest);
      var p := ReadFrame(s);
      got := got + [p.value];
      assert payloads[..i + 1] == payloads[..i] + [payloads[i]];
    }
    assert payloads[..n] == payloads && payloads[n..] == [];
  }

  /**
   Payloads of 1 byte to 1 MiB written with any schedule of short writes and
   interruptions, and read with any schedule of short reads and interruptions,
   come back as they were, from the agent to the daemon and, free of NULs, from
   the daemon to the agent.
   */
  method RoundTrip(payloads: seq<seq<Byte>>, daemon: bool, writing: seq<Io>, reading: seq<Io>)
    returns (got: seq<seq<Byte>>)
    requires Smooth(writing) && Smooth(reading)
    requires forall i :: 0 <= i < |payloads| ==> Framable(payloads[i])
    requires daemon ==> forall i :: 0 <= i < |payloads| ==> NUL !in payloads[i]
    ensures got == payloads
  {
    var s := new Stream([], writing);
    WriteAll(s, payloads, daemon);
    s.schedule := reading;
    assert s.bytes == Frames(payloads) + [];
    got := ReadAll(s, |payloads|, payloads, []);
  }
}
