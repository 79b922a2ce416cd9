/**
 Runs of the C daemon over any requests, any failures of the file system and
 any crashes: replies are written once, and sequence numbers guard execution.
 */
module DaemonRuns {
  import opened Options
  import opened CanonicalText
  import opened PrivilegedDaemon

  datatype Step = Step(request: Request, world: World)

  function After(dir: string, s: State, step: Step): State { Handle(dir, s, step.request, step.world).0 }

  function Run(dir: string, s: State, steps: seq<Step>): State {
    if steps == [] then s else After(dir, Run(dir, s, steps[..|steps| - 1]), steps[|steps| - 1])
  }

  /** What the requester receives: nothing if the daemon died. */
  function Received(dir: string, s: State, step: Step): Option<Reply> {
    if step.world.died then None else Some(Handle(dir, s, step.request, step.world).1)
  }

  /** The reply received at step `i` of a run. */
  function ReceivedAt(dir: string, s: State, steps: seq<Step>, i: nat): Option<Reply>
    requires i < |steps|
  {
    Received(dir, Run(dir, s, steps[..i]), steps[i])
  }

  // One request

  lemma SaveKeeps(files: map<string, string>, path: string, text: string, w: Write, other: string)
    requires other != path && other != Temporary(path)
    ensures other in SaveFile(files, path, text, w) <==> other in files
    ensures other in files ==> SaveFile(files, path, text, w)[other] == files[other]
  {
  }

  /** Performing a request touches no reply file but its own. */
  lemma PerformKeeps(dir: string, s: State, slot: string, sequence: int, w: World, other: string)
    requires other != slot && ResponsePath(dir, other) in s.files
    ensures var files := Perform(dir, s, slot, sequence, w).0.files;
            ResponsePath(dir, other) in files && files[ResponsePath(dir, other)] == s.files[ResponsePath(dir, other)]
  {
    if w.executor.Signed? {
      if ResponsePath(dir, other) == ResponsePath(dir, slot) { ResponsePathInjective(dir, other, slot); }
      PathsApart(dir, slot, other);
      PathsApart(dir, other, other);
      SaveKeeps(s.files, ResponsePath(dir, slot), w.executor.text, w.response, ResponsePath(dir, other));
      var files := SaveFile(s.files, ResponsePath(dir, slot), w.executor.text, w.response);
      SaveKeeps(files, SequencePath(dir), IntText(sequence) + "\n", w.sequence, ResponsePath(dir, other));
    }
  }

  /** A reply on disk survives every request, and no request for its slot is executed again. */
  lemma HandleKeeps(dir: string, s: State, r: Request, w: World, slot: string)
    requires ResponsePath(dir, slot) in s.files
    ensures var s' := Handle(dir, s, r, w).0;
            ResponsePath(dir, slot) in s'.files && s'.files[ResponsePath(dir, slot)] == s.files[ResponsePath(dir, slot)]
    ensures Slot(r.id) == slot ==> Handle(dir, s, r, w).0 == s
    ensures Slot(r.id) == slot ==>
              Handle(dir, s, r, w).1 == Stored(s.files[ResponsePath(dir, slot)]) || Handle(dir, s, r, w).1.Refused?
  {
    if Slot(r.id) != slot { PerformKeeps(dir, s, Slot(r.id), r.sequence, w, slot); }
  }

  predicate OnDisk(dir: string, s: State, slot: string, text: string) {
    ResponsePath(dir, slot) in s.files && s.files[ResponsePath(dir, slot)] == text
  }

  /** A successful reply is the one on disk afterwards. */
  lemma ReplyIsOnDisk(dir: string, s: State, r: Request, w: World, text: string)
    requires Handle(dir, s, r, w).1 == Stored(text)
    ensures OnDisk(dir, Handle(dir, s, r, w).0, Slot(r.id), text)
  {
    PathsApart(dir, Slot(r.id), Slot(r.id));
  }

  // Runs

  /** No execution from position `from` on is of this slot. */
  predicate NotExecuted(log: seq<Execution>, from: nat, slot: string) {
    forall k :: from <= k < |log| ==> log[k].slot != slot
  }

  lemma LogGrows(dir: string, s: State, step: Step)
    ensures var log := After(dir, s, step).log;
            || log == s.log
            || (|log| == |s.log| + 1 && log[..|s.log|] == s.log
                && log[|s.log|].slot == Slot(step.request.id) && log[|s.log|].sequence == step.request.sequence)
  {
  }

  /**
   Write-once replies.  Once a reply is on disk, it stays there unchanged
   through any run, and the executor is never again called for its slot.
   */
  lemma {:induction false} WriteOnce(dir: string, s: State, steps: seq<Step>, slot: string, text: string)
    requires OnDisk(dir, s, slot, text)
    ensures OnDisk(dir, Run(dir, s, steps), slot, text)
    ensures |s.log| <= |Run(dir, s, steps).log| && NotExecuted(Run(dir, s, steps).log, |s.log|, slot)
  {
    if steps != [] {
      var n := |steps| - 1;
      var p := Run(dir, s, steps[..n]);
      WriteOnce(dir, s, steps[..n], slot, text);
      HandleKeeps(dir, p, steps[n].request, steps[n].world, slot);
      LogGrows(dir, p, steps[n]);
    }
  }

  lemma {:induction false} RunConcat(dir: string, s: State, a: seq<Step>, b: seq<Step>)
    ensures Run(dir, s, a + b) == Run(dir, Run(dir, s, a), b)
    decreases |b|
  {
    if b == [] {
      assert a + b == a;
    } else {
      var n := |b| - 1;
      assert (a + b)[..|a + b| - 1] == a + b[..n];
      RunConcat(dir, s, a, b[..n]);
    }
  }

  lemma RunBetween(dir: string, s: State, steps: seq<Step>, i: nat, j: nat)
    requires i < j <= |steps|
    ensures Run(dir, s, steps[..j]) == Run(dir, After(dir, Run(dir, s, steps[..i]), steps[i]), steps[i + 1..j])
  {
    assert steps[..j] == steps[..i + 1] + steps[i + 1..j];
    RunConcat(dir, s, steps[..i + 1], steps[i + 1..j]);
    assert steps[..i + 1][..i] == steps[..i];
  }

  /**
   In any run, after a request was answered with a reply, every later request
   filed under the same id gets that same reply or a refusal, and is not executed.
   */
  lemma RepliesAgree(dir: string, s: State, steps: seq<Step>, i: nat, j: nat)
    requires i < j < |steps| && Slot(steps[i].request.id) == Slot(steps[j].request.id)
    requires ReceivedAt(dir, s, steps, i).Some? && ReceivedAt(dir, s, steps, i).value.Stored?
    ensures ReceivedAt(dir, s, steps, j).None? || ReceivedAt(dir, s, steps, j).value.Refused? ||
            ReceivedAt(dir, s, steps, j) == ReceivedAt(dir, s, steps, i)
    ensures Run(dir, s, steps[..j + 1]).log == Run(dir, s, steps[..j]).log
  {
    var slot, text := Slot(steps[i].request.id), ReceivedAt(dir, s, steps, i).value.text;
    var p := Run(dir, s, steps[..i]);
    ReplyIsOnDisk(dir, p, steps[i].request, steps[i].world, text);
    RunBetween(dir, s, steps, i, j);
    WriteOnce(dir, After(dir, p, steps[i]), steps[i + 1..j], slot, text);
    HandleKeeps(dir, Run(dir, s, steps[..j]), steps[j].request, steps[j].world, slot);
    assert steps[..j + 1][..j] == steps[..j];
  }

  // Sequence numbers

  /** The persisted sequence number, if the file is readable as one. */
  function Persisted(dir: string, s: State): Option<int> { LoadedSequence(s.files, dir, true) }

  predicate AtMost(n: int, last: Option<int>) { last.Some? && n <= last.value }

  lemma ResponseKeepsSequence(dir: string, files: map<string, string>, slot: string, text: string, w: Write)
    ensures LoadedSequence(SaveFile(files, ResponsePath(dir, slot), text, w), dir, true)
            == LoadedSequence(files, dir, true)
  {
  }

  lemma SequenceSaved(dir: string, files: map<string, string>, n: int, w: Write)
    ensures LoadedSequence(SaveFile(files, SequencePath(dir), IntText(n) + "\n", w), dir, true)
            == if w == Saved then Some(n) else LoadedSequence(files, dir, true)
  {
    PathsApart(dir, "", "");
    ScanSaved(n);
  }

  /** The persisted number moves to the request's exactly when its execution finishes. */
  lemma PerformPersists(dir: string, s: State, slot: string, sequence: int, w: World)
    ensures var s' := Perform(dir, s, slot, sequence, w).0;
            |s'.log| == |s.log| + 1 && s'.log[..|s.log|] == s.log &&
            s'.log[|s.log|].slot == slot && s'.log[|s.log|].sequence == sequence &&
            Persisted(dir, s') == if s'.log[|s.log|].finished then Some(sequence) else Persisted(dir, s)
  {
    if w.executor.Signed? {
      ResponseKeepsSequence(dir, s.files, slot, w.executor.text, w.response);
      SequenceSaved(dir, SaveFile(s.files, ResponsePath(dir, slot), w.executor.text, w.response), sequence, w.sequence);
    }
  }

  /** One request: the persisted number never goes down, and what runs is above it. */
  lemma HandleSequence(dir: string, s: State, step: Step)
    ensures var s' := After(dir, s, step);
            s' == s ||
            (|s'.log| == |s.log| + 1 && s'.log[..|s.log|] == s.log && Persisted(dir, s).Some? &&
             s'.log[|s.log|].sequence > Persisted(dir, s).value &&
             Persisted(dir, s')
             == if s'.log[|s.log|].finished then Some(s'.log[|s.log|].sequence) else Persisted(dir, s))
  {
    PerformPersists(dir, s, Slot(step.request.id), step.request.sequence, step.world);
  }

  predicate Unfinished(e: Execution) { !e.finished }

  /** Every finished execution is covered by the persisted number, and was below every later one. */
  predicate Guarded(dir: string, s: State) {
    && (forall i :: 0 <= i < |s.log| ==> s.log[i].finished ==> AtMost(s.log[i].sequence, Persisted(dir, s)))
    && (forall i, j :: 0 <= i < j < |s.log| ==> s.log[i].sequence < s.log[j].sequence || Unfinished(s.log[i]))
  }

  lemma HandleGuards(dir: string, s: State, step: Step)
    requires Guarded(dir, s)
    ensures Guarded(dir, After(dir, s, step))
  {
    var s', n := After(dir, s, step), |s.log|;
    HandleSequence(dir, s, step);
    if s' != s {
      forall i | 0 <= i < |s'.log| ensures s'.log[i].finished ==> AtMost(s'.log[i].sequence, Persisted(dir, s')) {
        if i < n { assert s'.log[i] == s'.log[..n][i] == s.log[i]; }
      }
      forall i, j | 0 <= i < j < |s'.log| ensures s'.log[i].sequence < s'.log[j].sequence || Unfinished(s'.log[i]) {
        assert s'.log[i] == s'.log[..n][i] == s.log[i];
        if j < n { assert s'.log[j] == s'.log[..n][j] == s.log[j]; }
      }
    }
  }

  /**
   Sequence safety.  In any run the persisted number never decreases, and an
   execution whose number is not below a later one's ended before its own
   number was saved.
   */
  lemma {:induction false} SequenceSafety(dir: string, files: map<string, string>, steps: seq<Step>)
    ensures Guarded(dir, Run(dir, State(files, []), steps))
    ensures LoadedSequence(files, dir, true).Some? ==>
              AtMost(LoadedSequence(files, dir, true).value, Persisted(dir, Run(dir, State(files, []), steps)))
    ensures LoadedSequence(files, dir, true).None? ==> Run(dir, State(files, []), steps) == State(files, [])
  {
    if steps != [] {
      var n := |steps| - 1;
      var p := Run(dir, State(files, []), steps[..n]);
      SequenceSafety(dir, files, steps[..n]);
      HandleGuards(dir, p, steps[n]);
      HandleSequence(dir, p, steps[n]);
    }
  }

  /** Every execution recorded in a run was above the number persisted when it ran. */
  lemma ExecutionsExceed(dir: string, s: State, step: Step)
    requires After(dir, s, step).log != s.log
    ensures Persisted(dir, s).Some? && step.request.sequence > Persisted(dir, s).value
    ensures Checked(step.request) && ResponsePath(dir, Slot(step.request.id)) !in s.files
  {
  }

  /** The reply of an executed request reached the disk. */
  predicate ReplySaved(w: World) { w.executor.Signed? && w.response == Saved }

  lemma UnsavedReply(dir: string, s: State, slot: string, sequence: int, w: World)
    requires ResponsePath(dir, slot) !in s.files && !ReplySaved(w)
    ensures ResponsePath(dir, slot) !in Perform(dir, s, slot, sequence, w).0.files
    ensures Persisted(dir, Perform(dir, s, slot, sequence, w).0) == Persisted(dir, s)
  {
  }

  /**
   When at-most-once fails here: the same request sent again after an execution
   is executed again exactly if the first reply did not reach the disk, because
   both files are written only after the executor has run.
   */
  lemma RetryExecutes(dir: string, s: State, r: Request, w: World, again: World)
    requires After(dir, s, Step(r, w)).log != s.log && again.cacheReadable && again.sequenceReadable
    ensures var s' := After(dir, s, Step(r, w));
            After(dir, s', Step(r, again)).log != s'.log <==> !ReplySaved(w)
  {
    var s', slot := After(dir, s, Step(r, w)), Slot(r.id);
    ExecutionsExceed(dir, s, Step(r, w));
    assert s' == Perform(dir, s, slot, r.sequence, w).0;
    if ReplySaved(w) {
      PathsApart(dir, slot, slot);
      assert ResponsePath(dir, slot) in s'.files;
      HandleKeeps(dir, s', r, again, slot);
    } else {
      UnsavedReply(dir, s, slot, r.sequence, w);
      PerformPersists(dir, s', slot, r.sequence, again);
    }
  }

  /** Nothing goes wrong while the request is handled. */
  predicate Healthy(w: World) {
    w.cacheReadable && w.sequenceReadable && w.executor.Signed? && w.response == Saved && w.sequence == Saved
  }

  /** A checked request without a reply and with a new number is executed and answered with the executor's text. */
  lemma HealthyServes(dir: string, p: State, r: Request, w: World)
    requires Checked(r) && Healthy(w) && ResponsePath(dir, Slot(r.id)) !in p.files
    requires Persisted(dir, p).Some? && Persisted(dir, p).value < r.sequence
    ensures var (p', reply) := Handle(dir, p, r, w);
            reply == Stored(w.executor.text) && p'.log == p.log + [Execution(Slot(r.id), r.sequence, true)]
  {
  }

  lemma PerformAdds(dir: string, s: State, slot: string, sequence: int, w: World, other: string)
    requires other != slot && ResponsePath(dir, other) !in s.files
    ensures ResponsePath(dir, other) !in Perform(dir, s, slot, sequence, w).0.files
  {
    if ResponsePath(dir, other) == ResponsePath(dir, slot) { ResponsePathInjective(dir, other, slot); }
    PathsApart(dir, slot, other);
    PathsApart(dir, other, other);
  }

  /** No request but one for the slot gives it a reply. */
  lemma {:induction false} NoReplyYet(dir: string, s: State, steps: seq<Step>, slot: string)
    requires ResponsePath(dir, slot) !in s.files && forall i :: 0 <= i < |steps| ==> Slot(steps[i].request.id) != slot
    ensures ResponsePath(dir, slot) !in Run(dir, s, steps).files
  {
    if steps != [] {
      var n := |steps| - 1;
      var p, r := Run(dir, s, steps[..n]), steps[n].request;
      NoReplyYet(dir, s, steps[..n], slot);
      PerformAdds(dir, p, Slot(r.id), r.sequence, steps[n].world, slot);
    }
  }

  predicate OrdinaryId(id: string) { 0 < |id| <= 127 }

  /**
   Requests do not answer for each other.  After any run of requests with other
   ids, all of 1 to 127 characters, a checked request with a new number is
   executed and answered with the executor's own text, if nothing goes wrong.
   */
  lemma OthersDoNotAnswer(dir: string, s: State, steps: seq<Step>, r: Request, w: World)
    requires OrdinaryId(r.id) && Checked(r) && Healthy(w) && ResponsePath(dir, r.id) !in s.files
    requires forall i :: 0 <= i < |steps| ==> OrdinaryId(steps[i].request.id) && steps[i].request.id != r.id
    requires Persisted(dir, Run(dir, s, steps)).Some? && Persisted(dir, Run(dir, s, steps)).value < r.sequence
    ensures var p := Run(dir, s, steps);
            var (p', reply) := Handle(dir, p, r, w);
            reply == Stored(w.executor.text) && p'.log == p.log + [Execution(r.id, r.sequence, true)]
  {
    SlotIsPrefix(r.id);
    forall i | 0 <= i < |steps| ensures Slot(steps[i].request.id) != Slot(r.id) {
      SlotShared(steps[i].request.id, r.id);
    }
    NoReplyYet(dir, s, steps, Slot(r.id));
    HealthyServes(dir, Run(dir, s, steps), r, w);
  }

  /** Two long ids that begin alike do answer for each other: the second gets the reply of the first. */
  lemma LongIdsAnswer(dir: string, s: State, r: Request, w: World, q: Request, v: World)
    requires |r.id| > 127 && |q.id| > 127 && Checked(r) && Checked(q) && Healthy(w) && v.cacheReadable
    requires ResponsePath(dir, Slot(r.id)) !in s.files && w.executor.text != ""
    requires Persisted(dir, s).Some? && Persisted(dir, s).value < r.sequence
    ensures r.id[..127] == q.id[..127] ==>
              Handle(dir, After(dir, s, Step(r, w)), q, v)
              == (After(dir, s, Step(r, w)), Stored(w.executor.text))
  {
    SlotShared(r.id, q.id);
    HealthyServes(dir, s, r, w);
    ReplyIsOnDisk(dir, s, r, w, w.executor.text);
  }

  /**
   The first request.  With no sequence file, a checked request without a reply is
   executed exactly if its number is above zero.
   */
  lemma FirstNumber(dir: string, s: State, r: Request, w: World)
    requires SequencePath(dir) !in s.files && ResponsePath(dir, Slot(r.id)) !in s.files
    requires Checked(r) && w.cacheReadable && w.sequenceReadable
    ensures After(dir, s, Step(r, w)).log != s.log <==> r.sequence > 0
  {
  }

  /** What cannot be read keeps a request from being executed: the reply file, an empty one, or the sequence file. */
  lemma UnreadableRefused(dir: string, s: State, r: Request, w: World)
    requires Checked(r)
    requires || !w.cacheReadable || OnDisk(dir, s, Slot(r.id), "")
             || (ResponsePath(dir, Slot(r.id)) !in s.files && !w.sequenceReadable)
    ensures Handle(dir, s, r, w).0 == s && Handle(dir, s, r, w).1.Refused?
    ensures Handle(dir, s, r, w).1.reason.code == "ERR_EXECUTION_FAILED"
  {
  }
}
