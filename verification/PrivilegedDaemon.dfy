/**
 The C daemon's state directory and `handle_request`: replies are kept one file
 per request id, the last sequence number in a file of its own, and both are
 written to a temporary name and renamed.  Every failure and every crash leaves
 some prefix of those file operations done.
 */
module PrivilegedDaemon {
  import opened Options
  import opened CanonicalText

  // Names

  predicate SafeChar(c: char) { 'a' <= c <= 'z' || 'A' <= c <= 'Z' || '0' <= c <= '9' || c == '-' }

  /** In ASCII codes: digits, capital and small letters, and the dash; so no slash, no dot and no blank. */
  lemma SafeCodes(c: char)
    ensures SafeChar(c) <==> var n := c as int; 48 <= n <= 57 || 65 <= n <= 90 || 97 <= n <= 122 || n == 45
  {
  }

  predicate SafeId(s: string) { s != "" && forall i :: 0 <= i < |s| ==> SafeChar(s[i]) }

  /** `is_safe_id`. */
  method IsSafeId(s: string) returns (safe: bool)
    ensures safe <==> SafeId(s)
  {
    if s == "" { return false; }
    for i := 0 to |s|
      invariant forall k :: 0 <= k < i ==> SafeChar(s[k])
    {
      var c := s[i];
      if !('a' <= c <= 'z' || 'A' <= c <= 'Z' || '0' <= c <= '9' || c == '-') { return false; }
    }
    return true;
  }

  /** The id replies are filed under: the first 127 characters, or a fixed name for an empty id. */
  function Slot(id: string): string {
    if id == "" then "unknown" else if |id| > 127 then id[..127] else id
  }

  /** A slot is the longest beginning of the id that fits 127 characters. */
  lemma SlotIsPrefix(id: string)
    requires id != ""
    ensures Slot(id) <= id && 0 < |Slot(id)| <= 127 && (|id| <= 127 ==> Slot(id) == id)
    ensures |id| > 127 ==> |Slot(id)| == 127
  {
  }

  /** Which ids share a slot: equal ones, long ones that begin alike, and the empty one with `unknown`. */
  lemma SlotShared(a: string, b: string)
    ensures 0 < |a| <= 127 && 0 < |b| <= 127 ==> (Slot(a) == Slot(b) <==> a == b)
    ensures |a| > 127 && |b| > 127 ==> (Slot(a) == Slot(b) <==> a[..127] == b[..127])
    ensures |a| > 127 && 0 < |b| <= 127 ==> (Slot(a) == Slot(b) <==> a[..127] == b)
    ensures a == "" && b != "" ==> (Slot(a) == Slot(b) <==> b == "unknown")
  {
  }

  function ResponsePath(dir: string, slot: string): string { dir + "/responses/" + slot + ".json" }

  function SequencePath(dir: string): string { dir + "/sequence.txt" }

  function Temporary(path: string): string { path + ".tmp" }

  lemma ResponsePathInjective(dir: string, a: string, b: string)
    requires ResponsePath(dir, a) == ResponsePath(dir, b)
    ensures a == b
  {
    var p, k := ResponsePath(dir, a), |dir + "/responses/"|;
    assert p[k..|p| - 5] == a;
    assert ResponsePath(dir, b)[k..|p| - 5] == b;
  }

  /** Replies, the sequence file and temporary files never share a name. */
  lemma PathsApart(dir: string, a: string, b: string)
    ensures ResponsePath(dir, a) != SequencePath(dir)
    ensures Temporary(ResponsePath(dir, a)) != SequencePath(dir)
    ensures Temporary(ResponsePath(dir, a)) != ResponsePath(dir, b)
    ensures Temporary(SequencePath(dir)) != ResponsePath(dir, b)
    ensures Temporary(SequencePath(dir)) != SequencePath(dir)
  {
    var k := |dir| + 1;
    assert ResponsePath(dir, a)[k] == 'r' && Temporary(ResponsePath(dir, a))[k] == 'r';
    assert SequencePath(dir)[k] == 's' && Temporary(SequencePath(dir))[k] == 's';
    assert ResponsePath(dir, b)[k] == 'r';
    var t, r := Temporary(ResponsePath(dir, a)), ResponsePath(dir, b);
    assert t[|t| - 1] == 'p' && r[|r| - 1] == 'n';
  }

  // The sequence file's text

  function SkipBlank(s: string): string {
    if s != "" && s[0] in " \t\n\r\U{0B}\U{0C}" then SkipBlank(s[1..]) else s
  }

  /** The length of the leading run of digits. */
  function DigitRun(s: string): (n: nat)
    ensures n <= |s| && forall i :: 0 <= i < n ==> IsDigit(s[i])
  {
    if s != "" && IsDigit(s[0]) then
      var n := DigitRun(s[1..]);
      assert forall i :: 1 <= i < n + 1 ==> s[i] == s[1..][i - 1];
      n + 1
    else 0
  }

  function ScanNat(s: string): Option<int> {
    var n := DigitRun(s);
    if n == 0 then None else Some(NatValue(s[..n]))
  }

  /** `fscanf` with `%ld`. */
  function ScanLong(text: string): Option<int> {
    var s := SkipBlank(text);
    if s == "" then None
    else if s[0] == '-' then
      var n := ScanNat(s[1..]);
      if n.None? then None else Some(-n.value)
    else if s[0] == '+' then ScanNat(s[1..])
    else ScanNat(s)
  }

  lemma {:induction false} DigitRunAll(s: string, rest: string)
    requires forall i :: 0 <= i < |s| ==> IsDigit(s[i])
    requires rest != "" && !IsDigit(rest[0])
    ensures DigitRun(s + rest) == |s|
  {
    if s == "" {
      assert s + rest == rest;
    } else {
      assert (s + rest)[1..] == s[1..] + rest && (s + rest)[0] == s[0];
      DigitRunAll(s[1..], rest);
    }
  }

  lemma ScanNatText(n: nat)
    ensures ScanNat(NatText(n) + "\n") == Some(n)
  {
    DigitRunAll(NatText(n), "\n");
    NatValueOfText(n);
    assert (NatText(n) + "\n")[..|NatText(n)|] == NatText(n);
  }

  lemma ScanPlain(s: string)
    requires s != "" && IsDigit(s[0])
    ensures ScanLong(s) == ScanNat(s)
  {
  }

  lemma ScanNegative(s: string, n: int)
    requires ScanNat(s) == Some(n)
    ensures ScanLong("-" + s) == Some(-n)
  {
  }

  /** The saved sequence reads back as it was written. */
  lemma ScanSaved(n: int)
    ensures ScanLong(IntText(n) + "\n") == Some(n)
  {
    if n < 0 {
      ScanNatText(-n);
      ScanNegative(NatText(-n) + "\n", -n);
      assert IntText(n) + "\n" == "-" + (NatText(-n) + "\n");
    } else {
      ScanNatText(n);
      ScanPlain(NatText(n) + "\n");
    }
  }

  // Files

  /** How far a save got: the open, the write, the rename. */
  datatype Write = NotOpened | Cut(n: nat) | NotRenamed | Saved

  function SaveFile(files: map<string, string>, path: string, text: string, w: Write): map<string, string> {
    match w
    case NotOpened => files
    case Cut(n) => files[Temporary(path) := if n < |text| then text[..n] else text]
    case NotRenamed => files[Temporary(path) := text]
    case Saved => (files - {Temporary(path)})[path := text]
  }

  /** What `state_store_load_sequence` finds; `None` is its failure. */
  function LoadedSequence(files: map<string, string>, dir: string, readable: bool): Option<int> {
    if !readable then None
    else if SequencePath(dir) !in files then Some(0)
    else ScanLong(files[SequencePath(dir)])
  }

  datatype Lookup = Broken | Missing | Found(text: string)

  /** What `state_store_get_response` finds. */
  function Response(files: map<string, string>, dir: string, slot: string, readable: bool): Lookup {
    if !SafeId(slot) || !readable then Broken
    else if ResponsePath(dir, slot) !in files then Missing
    else if files[ResponsePath(dir, slot)] == "" then Broken
    else Found(files[ResponsePath(dir, slot)])
  }

  // Requests

  datatype Refusal = Refusal(slot: string, status: string, code: string, message: string)

  datatype Reply = Stored(text: string) | Refused(reason: Refusal)

  /**
   A request as the checks see it: `malformed` is the refusal of the parse and
   field checks, if any, and `denied` that of the type, time stamp and
   signature checks that come after the id check.
   */
  datatype Request = Request(malformed: Option<Refusal>, id: string, denied: Option<Refusal>, sequence: int)

  /** The executor ran and its answer was signed, or something went wrong on the way. */
  datatype Executor = Unusable(message: string) | Signed(text: string)

  /** What the environment does to one request. */
  datatype World = World(
    cacheReadable: bool,
    sequenceReadable: bool,
    executor: Executor,
    response: Write,
    sequence: Write,
    died: bool)

  /** One call of the executor; `finished` when its sequence number reached the disk. */
  datatype Execution = Execution(slot: string, sequence: int, finished: bool)

  datatype State = State(files: map<string, string>, log: seq<Execution>)

  function Ran(s: State, files: map<string, string>, slot: string, sequence: int, finished: bool): State {
    State(files, s.log + [Execution(slot, sequence, finished)])
  }

  function Failure(slot: string, message: string): Reply {
    Refused(Refusal(slot, "error", "ERR_EXECUTION_FAILED", message))
  }

  predicate Checked(r: Request) { r.malformed.None? && SafeId(Slot(r.id)) && r.denied.None? }

  function CheckRefusal(r: Request): Reply
    requires !Checked(r)
  {
    if r.malformed.Some? then Refused(r.malformed.value)
    else if !SafeId(Slot(r.id)) then Refused(Refusal("unknown", "error", "ERR_SCHEMA_INVALID", "invalid request_id"))
    else Refused(r.denied.value)
  }

  /** The rest of `handle_request` once the executor is due. */
  function Perform(dir: string, s: State, slot: string, sequence: int, w: World): (State, Reply) {
    match w.executor
    case Unusable(message) => (Ran(s, s.files, slot, sequence, false), Failure(slot, message))
    case Signed(text) =>
      var files := SaveFile(s.files, ResponsePath(dir, slot), text, w.response);
      if w.response != Saved then (Ran(s, files, slot, sequence, false), Failure(slot, "response persistence failed"))
      else
        var files := SaveFile(files, SequencePath(dir), IntText(sequence) + "\n", w.sequence);
        if w.sequence != Saved then (Ran(s, files, slot, sequence, false), Failure(slot, "sequence persistence failed"))
        else (Ran(s, files, slot, sequence, true), Stored(text))
  }

  const REPLAY := "ERR_REPLAY_DETECTED"

  /** `handle_request`: the new state and the reply it would return. */
  function Handle(dir: string, s: State, r: Request, w: World): (State, Reply) {
    var slot := Slot(r.id);
    if !Checked(r) then (s, CheckRefusal(r))
    else
      match Response(s.files, dir, slot, w.cacheReadable)
      case Found(text) => (s, Stored(text))
      case Broken => (s, Failure(slot, "idempotency cache error"))
      case Missing =>
        var last := LoadedSequence(s.files, dir, w.sequenceReadable);
        if last.None? then (s, Failure(slot, "sequence load failed"))
        else if r.sequence <= last.value then (s, Refused(Refusal(slot, "denied", REPLAY, "sequence regression")))
        else Perform(dir, s, slot, r.sequence, w)
  }

  /** The daemon and its state directory. */
  class Daemon {
    const dir: string
    var files: map<string, string>
    var log: seq<Execution>

    ghost function View(): State
      reads this
    {
      State(files, log)
    }

    constructor (dir: string, files: map<string, string>)
      ensures this.dir == dir && View() == State(files, [])
    {
      this.dir, this.files, log := dir, files, [];
    }

    method LoadSequence(readable: bool) returns (last: Option<int>)
      ensures last == LoadedSequence(files, dir, readable)
    {
      if !readable { return None; }
      if SequencePath(dir) !in files { return Some(0); }
      return ScanLong(files[SequencePath(dir)]);
    }

    /** Writes the temporary file and renames it, as far as `w` lets it get. */
    method Save(path: string, text: string, w: Write) returns (ok: bool)
      modifies this`files
      ensures ok <==> w == Saved
      ensures files == SaveFile(old(files), path, text, w)
    {
      if w == NotOpened { return false; }
      files := files[Temporary(path) := ""];
      if w.Cut? {
        files := files[Temporary(path) := if w.n < |text| then text[..w.n] else text];
        return false;
      }
      files := files[Temporary(path) := text];
      if w == NotRenamed { return false; }
      files := files - {Temporary(path)};
      files := files[path := text];
      return true;
    }

    method GetResponse(slot: string, readable: bool) returns (found: Lookup)
      ensures found == Response(files, dir, slot, readable)
    {
      var safe := IsSafeId(slot);
      if !safe || !readable { return Broken; }
      if ResponsePath(dir, slot) !in files { return Missing; }
      if files[ResponsePath(dir, slot)] == "" { return Broken; }
      return Found(files[ResponsePath(dir, slot)]);
    }

    method Execute(slot: string, sequence: int, w: World) returns (reply: Reply)
      modifies this
      ensures (View(), reply) == Perform(dir, old(View()), slot, sequence, w)
    {
      if w.executor.Unusable? {
        log := log + [Execution(slot, sequence, false)];
        return Failure(slot, w.executor.message);
      }
      var ok := Save(ResponsePath(dir, slot), w.executor.text, w.response);
      if !ok {
        log := log + [Execution(slot, sequence, false)];
        return Failure(slot, "response persistence failed");
      }
      ok := Save(SequencePath(dir), IntText(sequence) + "\n", w.sequence);
      log := log + [Execution(slot, sequence, ok)];
      if !ok { return Failure(slot, "sequence persistence failed"); }
      return Stored(w.executor.text);
    }

    method HandleRequest(r: Request, w: World) returns (reply: Reply)
      modifies this
      ensures (View(), reply) == Handle(dir, old(View()), r, w)
    {
      var slot := Slot(r.id);
      if r.malformed.Some? { return Refused(r.malformed.value); }
      var safe := IsSafeId(slot);
      if !safe { return Refused(Refusal("unknown", "error", "ERR_SCHEMA_INVALID", "invalid request_id")); }
      if r.denied.Some? { return Refused(r.denied.value); }
      var cached := GetResponse(slot, w.cacheReadable);
      if cached.Found? { return Stored(cached.text); }
      if cached.Broken? { return Failure(slot, "idempotency cache error"); }
      var last := LoadSequence(w.sequenceReadable);
      if last.None? { return Failure(slot, "sequence load failed"); }
      if r.sequence <= last.value { return Refused(Refusal(slot, "denied", REPLAY, "sequence regression")); }
      reply := Execute(slot, r.sequence, w);
    }
  }
}
