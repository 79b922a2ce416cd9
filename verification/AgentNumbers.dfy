/**
 Runs whose file writes all succeed, and the one counter behind AUTH,
 heartbeats, outbox messages and privileged requests.
 */
module AgentNumbers {
  import opened AgentStore
  import opened AgentDelivery
  import opened AgentRuns
  import opened AgentAnswers

  /** No file write fails, and a restart can read the state file. */
  ghost predicate Works(s: Step) {
    (forall k: nat :: s.disk(k)) && (s.DieDuring? || s.Reboot? ==> s.files.state)
  }

  ghost predicate AllWork(steps: seq<Step>) { forall i :: 0 <= i < |steps| ==> Works(steps[i]) }

  /** A restart in this stretch went back to an older sequence number. */
  predicate SequenceLost(es: seq<Event>) { exists k :: 0 <= k < |es| && es[k].Restarted? && es[k].lostSequence }

  /** Every number issued since is above the one at `i`, or the counter was lost. */
  predicate Outgrown(m: Machine, i: nat) {
    i < |m.history| && m.history[i].Issued? &&
    (SequenceLost(m.history[i + 1..]) || m.history[i].number <= m.store.sequence)
  }

  lemma SequenceLostLater(es: seq<Event>, more: seq<Event>)
    requires SequenceLost(es)
    ensures SequenceLost(es + more)
  {
    var k :| 0 <= k < |es| && es[k].Restarted? && es[k].lostSequence;
    assert (es + more)[k] == es[k];
  }

  lemma ApplyOutgrows(m: Machine, a: Action, saved: bool, i: nat)
    requires Outgrown(m, i)
    ensures Outgrown(Apply(m, a, saved), i)
  {
    var es, more := m.history[i + 1..], NewEvents(m, a);
    ApplyTail(m, a, saved, i);
    if SequenceLost(es) {
      SequenceLostLater(es, more);
    } else if a.Restart? && more[0].lostSequence {
      assert (es + more)[|es|] == more[0];
    }
  }

  lemma {:induction false} ApplyAllOutgrows(m: Machine, acts: seq<Action>, disk: nat -> bool, i: nat)
    requires Outgrown(m, i)
    ensures Outgrown(ApplyAll(m, acts, disk), i)
  {
    if acts != [] {
      var n := |acts| - 1;
      ApplyAllOutgrows(m, acts[..n], disk, i);
      ApplyOutgrows(ApplyAll(m, acts[..n], disk), acts[n], disk(n), i);
    }
  }

  lemma RecordedNumber(m: Machine, a: Action, saved: bool, e: Event)
    requires Recorded(m, a, saved, e) && e.Issued?
    ensures a.TakeSequence? && e.number == m.store.sequence + 1 == Apply(m, a, saved).store.sequence
  {
    assert Apply(m, a, saved).history[|m.history|] == e;
  }

  /** A number issued among the actions is the counter's next value. */
  lemma NumberAt(m: Machine, acts: seq<Action>, disk: nat -> bool, k: nat) returns (p: nat)
    requires m.history <= ApplyAll(m, acts, disk).history && |m.history| <= k < |ApplyAll(m, acts, disk).history|
    requires ApplyAll(m, acts, disk).history[k].Issued?
    ensures p < |acts| && k == |ApplyAll(m, acts[..p], disk).history|
    ensures ApplyAll(m, acts, disk).history[k].number == ApplyAll(m, acts[..p], disk).store.sequence + 1
    ensures Recorded(ApplyAll(m, acts[..p], disk), acts[p], disk(p), ApplyAll(m, acts, disk).history[k])
  {
    p := Locate(m, acts, disk, k);
    RecordedNumber(ApplyAll(m, acts[..p], disk), acts[p], disk(p), ApplyAll(m, acts, disk).history[k]);
  }

  lemma NumberTaken(m: Machine, acts: seq<Action>, disk: nat -> bool, p: nat, e: Event)
    requires p < |acts| && e.Issued? && Recorded(ApplyAll(m, acts[..p], disk), acts[p], disk(p), e)
    ensures Outgrown(ApplyAll(m, acts[..p + 1], disk), |ApplyAll(m, acts[..p], disk).history|)
  {
    var m1 := ApplyAll(m, acts[..p], disk);
    RecordedNumber(m1, acts[p], disk(p), e);
    AgentDelivery.Step(m, acts[..p], acts[p], disk);
    assert acts[..p] + [acts[p]] == acts[..p + 1];
    assert Apply(m1, acts[p], disk(p)).history[|m1.history|] == e;
  }

  lemma NumberOutgrown(m: Machine, acts: seq<Action>, disk: nat -> bool, k: nat)
    requires m.history <= ApplyAll(m, acts, disk).history && |m.history| <= k < |ApplyAll(m, acts, disk).history|
    requires ApplyAll(m, acts, disk).history[k].Issued?
    ensures Outgrown(ApplyAll(m, acts, disk), k)
  {
    var p := NumberAt(m, acts, disk, k);
    NumberTaken(m, acts, disk, p, ApplyAll(m, acts, disk).history[k]);
    OutgrownLater(m, acts, disk, p + 1, k);
  }

  lemma OutgrownLater(m: Machine, acts: seq<Action>, disk: nat -> bool, p: nat, k: nat)
    requires p <= |acts| && Outgrown(ApplyAll(m, acts[..p], disk), k)
    ensures Outgrown(ApplyAll(m, acts, disk), k)
  {
    ApplySplit(m, acts, disk, p);
    ApplyAllOutgrows(ApplyAll(m, acts[..p], disk), acts[p..], Later(disk, p), k);
  }

  lemma {:induction false} RunOutgrows(c: Config, m: Machine, steps: seq<Step>, i: nat)
    requires Initial(m) && i < |Run(c, m, steps).history| && Run(c, m, steps).history[i].Issued?
    ensures Outgrown(Run(c, m, steps), i)
  {
    if steps != [] {
      var n := |steps| - 1;
      var p, s := Run(c, m, steps[..n]), steps[n];
      LastStep(c, m, steps);
      if i < |p.history| {
        RunOutgrows(c, m, steps[..n], i);
        ApplyAllOutgrows(p, StepActions(c, p, s), s.disk, i);
      } else {
        NumberOutgrown(p, StepActions(c, p, s), s.disk, i);
      }
    }
  }

  /** At any point among the actions, earlier numbers are outgrown. */
  lemma OutgrownWithin(m: Machine, acts: seq<Action>, disk: nat -> bool, p: nat, i: nat)
    requires p <= |acts| && i < |ApplyAll(m, acts[..p], disk).history|
    requires ApplyAll(m, acts[..p], disk).history[i].Issued?
    requires i < |m.history| ==> Outgrown(m, i)
    ensures Outgrown(ApplyAll(m, acts[..p], disk), i)
  {
    HistoryGrows(m, acts[..p], disk);
    if i < |m.history| {
      ApplyAllOutgrows(m, acts[..p], disk, i);
    } else {
      NumberOutgrown(m, acts[..p], disk, i);
    }
  }

  /** A number issued by a step is above every earlier one since the counter was last lost. */
  lemma StepIncreases(m: Machine, acts: seq<Action>, disk: nat -> bool, i: nat, j: nat)
    requires m.history <= ApplyAll(m, acts, disk).history
    requires i < j && |m.history| <= j < |ApplyAll(m, acts, disk).history|
    requires ApplyAll(m, acts, disk).history[i].Issued? && ApplyAll(m, acts, disk).history[j].Issued?
    requires i < |m.history| ==> Outgrown(m, i)
    ensures SequenceLost(ApplyAll(m, acts, disk).history[i + 1..j]) ||
            ApplyAll(m, acts, disk).history[i].number < ApplyAll(m, acts, disk).history[j].number
  {
    var p := NumberAt(m, acts, disk, j);
    var q := ApplyAll(m, acts[..p], disk);
    PrefixHistory(m, acts, disk, p);
    OutgrownWithin(m, acts, disk, p, i);
    assert ApplyAll(m, acts, disk).history[i + 1..j] == q.history[i + 1..];
  }

  /** In every run the issued numbers strictly increase, except across a restart that lost the counter. */
  lemma {:induction false} NumbersIncrease(c: Config, m: Machine, steps: seq<Step>, i: nat, j: nat)
    requires Initial(m) && i < j < |Run(c, m, steps).history|
    requires Run(c, m, steps).history[i].Issued? && Run(c, m, steps).history[j].Issued?
    ensures SequenceLost(Run(c, m, steps).history[i + 1..j]) ||
            Run(c, m, steps).history[i].number < Run(c, m, steps).history[j].number
  {
    if steps != [] {
      var n := |steps| - 1;
      var p, s := Run(c, m, steps[..n]), steps[n];
      LastStep(c, m, steps);
      if j < |p.history| {
        NumbersIncrease(c, m, steps[..n], i, j);
        assert Run(c, m, steps).history[i + 1..j] == p.history[i + 1..j];
      } else {
        if i < |p.history| { RunOutgrows(c, m, steps[..n], i); }
        StepIncreases(p, StepActions(c, p, s), s.disk, i, j);
      }
    }
  }

  // Nothing is lost when every write succeeds

  predicate Lossless(e: Event) { e.Restarted? ==> !e.lostCommands && !e.lostSequence }

  /** Memory is what the file holds, and no restart has lost anything. */
  predicate Durable(m: Machine) {
    Sound(m) && m.store == m.storeFile && forall e :: e in m.history ==> Lossless(e)
  }

  /** Every restart among the actions can read the state file. */
  predicate Reads(acts: seq<Action>) { forall a :: a in acts ==> a.Restart? ==> a.files.state }

  lemma ApplyDurable(m: Machine, a: Action)
    requires Durable(m) && (a.Restart? ==> a.files.state)
    ensures Durable(Apply(m, a, true))
  {
    ApplySound(m, a, true);
    LoadSaved(m.storeFile);
    var m' := Apply(m, a, true);
    if m'.history != m.history {
      var e := m'.history[|m.history|];
      assert Lossless(e);
      assert m'.history == m.history + [e];
    }
  }

  lemma {:induction false} ApplyAllDurable(m: Machine, acts: seq<Action>, disk: nat -> bool)
    requires Durable(m) && Reads(acts) && forall k: nat :: disk(k)
    ensures Durable(ApplyAll(m, acts, disk))
  {
    if acts != [] {
      var n := |acts| - 1;
      ApplyAllDurable(m, acts[..n], disk);
      ApplyDurable(ApplyAll(m, acts[..n], disk), acts[n]);
    }
  }

  lemma PlanReads(c: Config, store: Image, d: Delivery)
    ensures forall a :: a in Plan(store, d, c.device, c.outOfOrder) ==> !a.Restart?
  {
    PlanIsBody(c, store, d);
    BodyActions(c, store, d);
    forall a | a in Body(c, store, d) ensures !a.Restart? { assert BodyAction(store, d, a); }
  }

  lemma StepReads(c: Config, m: Machine, s: Step)
    requires Works(s)
    ensures Reads(StepActions(c, m, s))
  {
    if s.Deliver? || s.DieDuring? { PlanReads(c, m.store, s.d); }
  }

  lemma {:induction false} RunDurable(c: Config, m: Machine, steps: seq<Step>)
    requires Durable(m) && AllWork(steps)
    ensures Durable(Run(c, m, steps))
  {
    if steps != [] {
      var n := |steps| - 1;
      RunDurable(c, m, steps[..n]);
      var p := Run(c, m, steps[..n]);
      StepReads(c, p, steps[n]);
      ApplyAllDurable(p, StepActions(c, p, steps[n]), steps[n].disk);
    }
  }

  lemma LosslessSlice(h: seq<Event>, i: nat, j: nat)
    requires i < j <= |h| && forall e :: e in h ==> Lossless(e)
    ensures !LossyRestart(h[i + 1..j]) && !SequenceLost(h[i + 1..j])
  {
    var es := h[i + 1..j];
    forall k | 0 <= k < |es| ensures Lossless(es[k]) {
      assert es[k] == h[i + 1 + k];
    }
  }

  /**
   With every write succeeding and the state file readable at every restart, a
   command is executed twice only if the process died before the first execution
   was remembered or 256 other commands were remembered in between; numbers
   strictly increase; and a command is answered alike until it is next looked up
   in vain.
   */
  lemma DurableRuns(c: Config, m: Machine, steps: seq<Step>, i: nat, j: nat)
    requires Initial(m) && m.store == m.storeFile && AllWork(steps) && i < j < |Run(c, m, steps).history|
    ensures var h := Run(c, m, steps).history;
            h[i].Executed? && h[i] == h[j] && h[i].id != "" ==>
              DiedFirst(h[i + 1..j], h[i].id) || |Others(h[i + 1..j], h[i].id)| >= MAX_PROCESSED
    ensures var h := Run(c, m, steps).history;
            h[i].Issued? && h[j].Issued? ==> h[i].number < h[j].number
    ensures var h := Run(c, m, steps).history;
            SameKind(h[i], h[j]) && h[i].id == h[j].id != "" && !MissedIn(h[i + 1..j], h[j].id) ==> h[i] == h[j]
  {
    var h := Run(c, m, steps).history;
    RunDurable(c, m, steps);
    LosslessSlice(h, i, j);
    if h[i].Executed? && h[i] == h[j] && h[i].id != "" { AtMostOnce(c, m, steps, i, j, h[i].id); }
    if h[i].Issued? && h[j].Issued? { NumbersIncrease(c, m, steps, i, j); }
    if SameKind(h[i], h[j]) && h[i].id == h[j].id != "" && !MissedIn(h[i + 1..j], h[j].id) {
      SameAnswer(c, m, steps, i, j);
    }
  }

  // What an unreadable state file costs

  /** Nothing but the cache and the last delivery id stands between the delivery and its execution. */
  predicate Ready(store: Image, d: Delivery) {
    && d.hasEnvelope && d.signatureOk && !(d.deliveryId != "" && d.deliveryId == store.lastDeliveryId)
    && !Expired(d) && d.capable && d.reachesDaemon
  }

  lemma AfterReboot(c: Config, m: Machine, files: Files, disk: nat -> bool)
    requires Durable(m)
    ensures After(c, m, Reboot(files, disk)).store == if files.state then m.store else EMPTY
  {
    One(m, Restart(files), disk);
    LoadSaved(m.storeFile);
  }

  /** A remembered command that comes again after a restart is executed again exactly if the file could not be read. */
  lemma RebootExecutes(c: Config, m: Machine, files: Files, disk: nat -> bool, d: Delivery)
    requires Durable(m) && Cached(m.store.processed, d.commandId) && Ready(m.store, d)
    ensures Executes(After(c, m, Reboot(files, disk)), d) <==> !files.state
  {
    AfterReboot(c, m, files, disk);
  }

  /** The first number after a restart is above the last one exactly if the file was read, or none had been issued. */
  lemma RebootNumbers(c: Config, m: Machine, files: Files, disk: nat -> bool)
    requires Durable(m)
    ensures var m' := After(c, After(c, m, Reboot(files, disk)), Tick(disk));
            && m'.history[|m'.history| - 1].Issued?
            && (m'.history[|m'.history| - 1].number > m.store.sequence <==> files.state || m.store.sequence <= 0)
  {
    AfterReboot(c, m, files, disk);
    One(After(c, m, Reboot(files, disk)), TakeSequence, disk);
  }
}
