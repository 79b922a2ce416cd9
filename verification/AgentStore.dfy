/**
 The agent's persistent state: a sequence counter, the last delivery id and a
 bounded first-in-first-out cache of processed commands, written whole to one
 file after every change.
 */
module AgentStore {
  import opened Json
  import opened CanonicalText

  const MAX_PROCESSED := 256

  datatype ExecutionResult = ExecutionResult(
    executionState: string,
    status: string,
    execId: string,
    errorType: string,
    errorMessage: string,
    result: Json<Number>)

  datatype ProcessedCommand = ProcessedCommand(
    commandId: string,
    requiresAck: bool,
    ackStatus: string,
    ackReason: string,
    result: ExecutionResult)

  /** The contents of `state.json`; a missing file reads as `EMPTY`. */
  datatype Image = Image(
    sequence: int,
    policyHash: string,
    lastDeliveryId: string,
    processed: seq<ProcessedCommand>)

  const EMPTY := Image(0, "", "", [])

  predicate DistinctIds(ps: seq<ProcessedCommand>) {
    forall i, j :: 0 <= i < j < |ps| ==> ps[i].commandId != ps[j].commandId
  }

  /** What the store keeps true of its cache. */
  predicate ValidCache(ps: seq<ProcessedCommand>) {
    |ps| <= MAX_PROCESSED && DistinctIds(ps) && forall i :: 0 <= i < |ps| ==> ps[i].commandId != ""
  }

  /** The position of the first entry for a command, or the length. */
  function Find(ps: seq<ProcessedCommand>, id: string): (k: nat)
    ensures k <= |ps| && (k < |ps| ==> ps[k].commandId == id)
    ensures forall i :: 0 <= i < k ==> ps[i].commandId != id
  {
    if ps == [] || ps[0].commandId == id then 0
    else
      var k := Find(ps[1..], id);
      assert forall i :: 1 <= i < k + 1 ==> ps[i] == ps[1..][i - 1];
      k + 1
  }

  predicate Cached(ps: seq<ProcessedCommand>, id: string) { id != "" && Find(ps, id) < |ps| }

  function Newest(ps: seq<ProcessedCommand>): (r: seq<ProcessedCommand>)
    ensures |r| <= MAX_PROCESSED && |r| <= |ps| && r == ps[|ps| - |r|..]
    ensures |ps| <= MAX_PROCESSED ==> r == ps
  {
    if |ps| > MAX_PROCESSED then ps[|ps| - MAX_PROCESSED..] else ps
  }

  /** The cache after `RememberCommand`. */
  function Remember(ps: seq<ProcessedCommand>, c: ProcessedCommand): seq<ProcessedCommand> {
    if c.commandId == "" then ps
    else if Find(ps, c.commandId) < |ps| then ps[Find(ps, c.commandId) := c]
    else Newest(ps + [c])
  }

  /** Remembering keeps the cache valid, holds the new entry, and drops at most the oldest one. */
  lemma RememberKeepsCache(ps: seq<ProcessedCommand>, c: ProcessedCommand)
    requires ValidCache(ps)
    ensures ValidCache(Remember(ps, c))
    ensures c.commandId != "" ==>
              Cached(Remember(ps, c), c.commandId) && Remember(ps, c)[Find(Remember(ps, c), c.commandId)] == c
    ensures c.commandId != "" && !Cached(ps, c.commandId) ==>
              Remember(ps, c) == (if |ps| < 256 then ps else ps[1..]) + [c]
  {
    if c.commandId != "" {
      var k, r := Find(ps, c.commandId), Remember(ps, c);
      if k == |ps| {
        assert r == (if |ps| < MAX_PROCESSED then ps else ps[1..]) + [c];
      }
      var at := if k < |ps| then k else |r| - 1;
      assert r[at] == c;
    }
  }

  /** A known command is replaced where it stands, and nothing else changes. */
  lemma RememberReplaces(ps: seq<ProcessedCommand>, c: ProcessedCommand, k: nat)
    requires ValidCache(ps) && Cached(ps, c.commandId) && k < |ps|
    ensures |Remember(ps, c)| == |ps|
    ensures Remember(ps, c)[k] == if ps[k].commandId == c.commandId then c else ps[k]
  {
  }

  /** What `Load` keeps of a file: entries with an id, the newest 256 of them. */
  function Loaded(file: Image): Image { file.(processed := Newest(WithId(file.processed))) }

  function WithId(ps: seq<ProcessedCommand>): seq<ProcessedCommand> {
    if ps == [] then []
    else (if ps[0].commandId == "" then [] else [ps[0]]) + WithId(ps[1..])
  }

  lemma {:induction false} WithIdAll(ps: seq<ProcessedCommand>)
    requires forall i :: 0 <= i < |ps| ==> ps[i].commandId != ""
    ensures WithId(ps) == ps
  {
    if ps != [] {
      WithIdAll(ps[1..]);
      assert ps == [ps[0]] + ps[1..];
    }
  }

  lemma {:induction false} WithIdSnoc(ps: seq<ProcessedCommand>, p: ProcessedCommand)
    ensures WithId(ps + [p]) == WithId(ps) + if p.commandId == "" then [] else [p]
  {
    if ps == [] {
      assert [p][1..] == [] && ps + [p] == [p];
    } else {
      WithIdSnoc(ps[1..], p);
      assert (ps + [p])[1..] == ps[1..] + [p] && (ps + [p])[0] == ps[0];
    }
  }

  lemma {:induction false} WithIdHas(ps: seq<ProcessedCommand>, p: ProcessedCommand)
    ensures p in WithId(ps) <==> p in ps && p.commandId != ""
  {
    if ps != [] { WithIdHas(ps[1..], p); }
  }

  /** Loading drops the entries without an id, and only those while no more than 256 are left. */
  lemma LoadedHas(file: Image, p: ProcessedCommand)
    ensures p in Loaded(file).processed ==> p in file.processed && p.commandId != ""
    ensures |WithId(file.processed)| <= 256 && p in file.processed && p.commandId != "" ==> p in Loaded(file).processed
    ensures Loaded(file) == file.(processed := Loaded(file).processed)
  {
    WithIdHas(file.processed, p);
    if p in Loaded(file).processed { assert p in WithId(file.processed); }
  }

  /** Loading what was saved gives back the saved state. */
  lemma LoadSaved(file: Image)
    requires ValidCache(file.processed)
    ensures Loaded(file) == file
  {
    WithIdAll(file.processed);
  }

  /** `AgentStateStore`.  `saved` says whether the file write inside the call succeeds. */
  class AgentStateStore {
    var sequence: int
    var policyHash: string
    var lastDeliveryId: string
    var processed: seq<ProcessedCommand>
    var file: Image

    ghost function Memory(): Image
      reads this
    {
      Image(sequence, policyHash, lastDeliveryId, processed)
    }

    constructor (file: Image)
      ensures Memory() == EMPTY && this.file == file
    {
      sequence, policyHash, lastDeliveryId, processed := 0, "", "", [];
      this.file := file;
    }

    /** The memory of a new process. */
    method Start()
      modifies this
      ensures Memory() == EMPTY && file == old(file)
    {
      sequence, policyHash, lastDeliveryId, processed := 0, "", "", [];
    }

    /** A file that cannot be opened or parsed leaves the memory as it is. */
    method Load(readable: bool)
      modifies this
      ensures Memory() == (if readable then Loaded(old(file)) else old(Memory())) && file == old(file)
    {
      if !readable { return; }
      sequence, policyHash, lastDeliveryId := file.sequence, file.policyHash, file.lastDeliveryId;
      LoadCommands();
      if |processed| > MAX_PROCESSED { processed := processed[|processed| - MAX_PROCESSED..]; }
    }

    method LoadCommands()
      modifies this`processed
      ensures processed == WithId(file.processed)
    {
      processed := [];
      for i := 0 to |file.processed|
        invariant processed == WithId(file.processed[..i])
      {
        var item := file.processed[i];
        if item.commandId != "" { processed := processed + [item]; }
        WithIdSnoc(file.processed[..i], item);
        assert file.processed[..i + 1] == file.processed[..i] + [item];
      }
      assert file.processed[..|file.processed|] == file.processed;
    }

    method Save(saved: bool)
      modifies this`file
      ensures file == if saved then Memory() else old(file)
    {
      if saved { file := Image(sequence, policyHash, lastDeliveryId, processed); }
    }

    method NextSequence(saved: bool) returns (n: int)
      modifies this
      ensures n == old(sequence) + 1
      ensures Memory() == old(Memory()).(sequence := n)
      ensures file == if saved then Memory() else old(file)
    {
      sequence := sequence + 1;
      Save(saved);
      n := sequence;
    }

    method SetPolicyHash(hash: string, saved: bool)
      modifies this
      ensures Memory() == old(Memory()).(policyHash := hash)
      ensures file == if saved then Memory() else old(file)
    {
      policyHash := hash;
      Save(saved);
    }

    method SetLastDeliveryId(id: string, saved: bool)
      modifies this
      ensures Memory() == old(Memory()).(lastDeliveryId := id)
      ensures file == if saved then Memory() else old(file)
    {
      lastDeliveryId := id;
      Save(saved);
    }

    /** Finds the entry of a command; an empty id is never found. */
    method GetProcessedCommand(id: string) returns (found: bool, entry: ProcessedCommand)
      ensures found <==> Cached(processed, id)
      ensures id == "" ==> !found
      ensures found ==> entry == processed[Find(processed, id)]
    {
      entry := ProcessedCommand("", true, "", "", ExecutionResult("", "", "", "", "", Null));
      if id == "" { return false, entry; }
      for i := 0 to |processed|
        invariant forall k :: 0 <= k < i ==> processed[k].commandId != id
      {
        if processed[i].commandId == id { return true, processed[i]; }
      }
      return false, entry;
    }

    method RememberCommand(c: ProcessedCommand, saved: bool)
      modifies this
      ensures Memory() == old(Memory()).(processed := Remember(old(processed), c))
      ensures file == if c.commandId != "" && saved then Memory() else old(file)
    {
      if c.commandId == "" { return; }
      for i := 0 to |processed|
        invariant Memory() == old(Memory()) && file == old(file)
        invariant forall k :: 0 <= k < i ==> processed[k].commandId != c.commandId
      {
        if processed[i].commandId == c.commandId {
          processed := processed[i := c];
          Save(saved);
          return;
        }
      }
      processed := processed + [c];
      if |processed| > MAX_PROCESSED { processed := processed[|processed| - MAX_PROCESSED..]; }
      Save(saved);
    }
  }
}
