/**
 One direction of a socket, and the loops that read and write it in full
 however the kernel cuts the transfers.
 */
module Streams {
  import opened Sequences
  import opened Options
  import opened Bits

  /** The largest payload either kind of frame may carry. */
  const MAX_PAYLOAD := 1048576

  /** What one system call does: moves some bytes, is interrupted by a signal, or fails. */
  datatype Io = Moves(n: nat) | Interrupted | Fails

  predicate Smooth(schedule: seq<Io>) { Fails !in schedule }

  /** Short transfers only. */
  predicate Quiet(schedule: seq<Io>) { Fails !in schedule && Interrupted !in schedule }

  datatype Outcome = Moved(data: seq<Byte>) | Closed | Retry | Error

  /** At least one byte and no more than there is room for; everything when the schedule is used up. */
  function Portion(schedule: seq<Io>, available: nat): (k: nat)
    requires available > 0
    ensures 1 <= k <= available
  {
    if schedule == [] || !schedule[0].Moves? || schedule[0].n > available then available
    else if schedule[0].n == 0 then 1
    else schedule[0].n
  }

  function Min(a: nat, b: nat): nat { if a < b then a else b }

  class Stream {
    var bytes: seq<Byte>      // written and not yet read
    var schedule: seq<Io>

    constructor (bytes: seq<Byte>, schedule: seq<Io>)
      ensures this.bytes == bytes && this.schedule == schedule
    {
      this.bytes, this.schedule := bytes, schedule;
    }

    /** The system call `read`. */
    method Read(len: nat) returns (r: Outcome)
      requires len > 0
      modifies this
      ensures schedule == if old(schedule) == [] then [] else old(schedule)[1..]
      ensures r == Retry ==> old(schedule) != [] && old(schedule)[0] == Interrupted && bytes == old(bytes)
      ensures r == Error ==> Fails in old(schedule) && bytes == old(bytes)
      ensures r == Closed ==> old(bytes) == [] && bytes == []
      ensures r.Moved? ==> 1 <= |r.data| <= len && r.data + bytes == old(bytes)
    {
      var s := schedule;
      if s != [] { schedule := s[1..]; }
      if s != [] && s[0] == Interrupted { return Retry; }
      if s != [] && s[0] == Fails { return Error; }
      if bytes == [] { return Closed; }
      var k := Portion(s, Min(len, |bytes|));
      r := Moved(bytes[..k]);
      bytes := bytes[k..];
    }

    /** The system call `write`. */
    method Write(data: seq<Byte>) returns (r: Outcome)
      requires data != []
      modifies this
      ensures schedule == if old(schedule) == [] then [] else old(schedule)[1..]
      ensures r == Retry ==> old(schedule) != [] && old(schedule)[0] == Interrupted && bytes == old(bytes)
      ensures r == Error ==> Fails in old(schedule) && bytes == old(bytes)
      ensures r != Closed
      ensures r.Moved? ==> 1 <= |r.data| <= |data| && r.data == data[..|r.data|] && bytes == old(bytes) + r.data
    {
      var s := schedule;
      if s != [] { schedule := s[1..]; }
      if s != [] && s[0] == Interrupted { return Retry; }
      if s != [] && s[0] == Fails { return Error; }
      var k := Portion(s, |data|);
      r := Moved(data[..k]);
      bytes := bytes + data[..k];
    }

    /**
     `read_full`: exactly the first `len` bytes of the stream, or a failure; it
     fails only if the stream is too short or a system call fails.
     */
    method ReadFull(len: nat) returns (data: Option<seq<Byte>>)
      modifies this
      ensures data.Some? ==> |data.value| == len && data.value + bytes == old(bytes)
      ensures data.None? ==> |old(bytes)| < len || !Smooth(old(schedule))
      ensures Smooth(old(schedule)) ==> Smooth(schedule)
    {
      var buf: seq<Byte> := [];
      while |buf| < len
        invariant |buf| <= len && buf + bytes == old(bytes)
        invariant Smooth(old(schedule)) ==> Smooth(schedule)
        decreases |schedule| + len - |buf|
      {
        ghost var before, seen := bytes, schedule;
        var r := Read(len - |buf|);
        Shorter(seen);
        if r == Closed || r == Error {
          return None;
        }
        if r == Retry { continue; }
        Assoc(buf, r.data, bytes);
        buf := buf + r.data;
      }
      return Some(buf);
    }

    /** `ReadExact` on a plain socket: as `ReadFull`, but an interruption is a failure too. */
    method ReadExact(len: nat) returns (data: Option<seq<Byte>>)
      modifies this
      ensures data.Some? ==> |data.value| == len && data.value + bytes == old(bytes)
      ensures data.None? ==> |old(bytes)| < len || !Quiet(old(schedule))
      ensures Quiet(old(schedule)) ==> Quiet(schedule)
    {
      var buf: seq<Byte> := [];
      while |buf| < len
        invariant |buf| <= len && buf + bytes == old(bytes)
        invariant Quiet(old(schedule)) ==> Quiet(schedule)
      {
        ghost var seen := schedule;
        var r := Read(len - |buf|);
        Shorter(seen);
        if !r.Moved? { return None; }
        Assoc(buf, r.data, bytes);
        buf := buf + r.data;
      }
      return Some(buf);
    }

    /** `WriteExact` on a plain socket. */
    method WriteExact(data: seq<Byte>) returns (ok: bool)
      modifies this
      ensures ok ==> bytes == old(bytes) + data
      ensures !ok ==> !Quiet(old(schedule))
      ensures Quiet(old(schedule)) ==> Quiet(schedule)
    {
      var off := 0;
      while off < |data|
        invariant 0 <= off <= |data| && bytes == old(bytes) + data[..off]
        invariant Quiet(old(schedule)) ==> Quiet(schedule)
      {
        ghost var seen := schedule;
        var r := Write(data[off..]);
        Shorter(seen);
        if !r.Moved? { return false; }
        Extend(old(bytes), data, off, r.data);
        off := off + |r.data|;
      }
      assert data[..off] == data;
      return true;
    }

    /** `write_full`: all of the data, or a failure, which needs a failing system call. */
    method WriteFull(data: seq<Byte>) returns (ok: bool)
      modifies this
      ensures ok ==> bytes == old(bytes) + data
      ensures !ok ==> !Smooth(old(schedule))
      ensures Smooth(old(schedule)) ==> Smooth(schedule)
    {
      var off := 0;
      while off < |data|
        invariant 0 <= off <= |data| && bytes == old(bytes) + data[..off]
        invariant Smooth(old(schedule)) ==> Smooth(schedule)
        decreases |schedule| + |data| - off
      {
        ghost var seen := schedule;
        var r := Write(data[off..]);
        Shorter(seen);
        if r == Error { return false; }
        if r == Retry { continue; }
        Extend(old(bytes), data, off, r.data);
        off := off + |r.data|;
      }
      assert data[..off] == data;
      return true;
    }
  }

  lemma Shorter(schedule: seq<Io>)
    ensures schedule != [] && Smooth(schedule) ==> Smooth(schedule[1..])
    ensures schedule != [] && Quiet(schedule) ==> Quiet(schedule[1..])
  {
  }

  lemma Extend(start: seq<Byte>, data: seq<Byte>, off: nat, more: seq<Byte>)
    requires off <= |data| && |more| <= |data[off..]| && more == data[off..][..|more|]
    ensures start + data[..off] + more == start + data[..off + |more|]
  {
  }
}
