/**
 The Python daemon's reply cache: for as long as an entry's time window lasts,
 every repeat gets the first response and nothing is executed again, whatever
 the clock does.
 */
module PythonReplies {
  import opened PythonDaemon
  import opened PythonRuns

  /**
   The k-th event loses an entry cached before: a reset, a restart that could
   not read the file, or a restart before any save had put the entry there.
   */
  predicate LosesAt(es: seq<Event>, k: nat)
    requires k < |es|
  {
    es[k] == Reset || es[k] == Restarted(false) || (es[k] == Restarted(true) && FileSaved !in es[..k])
  }

  predicate LostCache(es: seq<Event>) { exists k :: 0 <= k < |es| && LosesAt(es, k) }

  predicate TooOld(e: Event, timestamp: real, window: real) { e.PurgeRan? && e.now - timestamp > window }

  /** A purge ran when an entry of that time was outside the window. */
  predicate PurgedLate(es: seq<Event>, timestamp: real, window: real) {
    exists k :: 0 <= k < |es| && TooOld(es[k], timestamp, window)
  }

  predicate Over(es: seq<Event>, timestamp: real, window: real) { LostCache(es) || PurgedLate(es, timestamp, window) }

  lemma OverLater(es: seq<Event>, more: seq<Event>, timestamp: real, window: real)
    requires Over(es, timestamp, window)
    ensures Over(es + more, timestamp, window)
  {
    if LostCache(es) {
      LostLater(es, more);
    } else {
      var k :| 0 <= k < |es| && TooOld(es[k], timestamp, window);
      assert (es + more)[k] == es[k];
    }
  }

  lemma LostLater(es: seq<Event>, more: seq<Event>)
    requires LostCache(es)
    ensures LostCache(es + more)
  {
    var k :| 0 <= k < |es| && LosesAt(es, k);
    assert (es + more)[k] == es[k] && (es + more)[..k] == es[..k];
    assert LosesAt(es + more, k);
  }

  predicate Holds(d: Data, e: Event)
    requires e.Inserted?
  {
    e.id in d.cache && d.cache[e.id].timestamp == e.timestamp && d.cache[e.id].response == e.response
  }

  /** Memory still has the entry, and so has the file once a save succeeded. */
  predicate Kept(m: Machine, e: Event, es: seq<Event>)
    requires e.Inserted?
  {
    Holds(m.memory, e) && (FileSaved in es ==> Holds(m.file, e))
  }

  /** The entry inserted at `i` is still the cached one, or its time is over. */
  predicate Live(m: Machine, i: nat, window: real) {
    i < |m.log| && m.log[i].Inserted? &&
    (Over(m.log[i + 1..], m.log[i].timestamp, window) || Kept(m, m.log[i], m.log[i + 1..]))
  }

  /** The action inserts no entry over an existing one. */
  predicate Gentle(m: Machine, a: Action, window: real) {
    (a.Insert? ==> a.id !in m.memory.cache) && (a.Purge? ==> a.window == window)
  }

  lemma ApplyLive(m: Machine, a: Action, i: nat, window: real)
    requires Live(m, i, window) && Gentle(m, a, window)
    ensures Live(Apply(m, a), i, window)
  {
    var m', es, e0 := Apply(m, a), m.log[i + 1..], m.log[i];
    if m'.log != m.log {
      var e := m'.log[|m.log|];
      assert m'.log[i + 1..] == es + [e];
      if Over(es, e0.timestamp, window) {
        OverLater(es, [e], e0.timestamp, window);
      } else {
        KeptOrOver(m, a, es, e, e0, window);
      }
    }
  }

  lemma KeptOrOver(m: Machine, a: Action, es: seq<Event>, e: Event, e0: Event, window: real)
    requires e0.Inserted? && Kept(m, e0, es) && Gentle(m, a, window) && Apply(m, a).log == m.log + [e]
    ensures Over(es + [e], e0.timestamp, window) || Kept(Apply(m, a), e0, es + [e])
  {
    assert (es + [e])[|es|] == e && (es + [e])[..|es|] == es;
    assert Apply(m, a).log[|m.log|] == e;
    assert LosesAt(es + [e], |es|) ==> LostCache(es + [e]);
  }

  /** At most one insertion, none after a restart, and purges with the one window. */
  predicate OneInsert(acts: seq<Action>, id: string, window: real) {
    acts == [] ||
    match acts[0]
    case Insert(x, _) => x == id && NoInsert(acts[1..], window)
    case Restart(_) => NoInsert(acts[1..], window)
    case Purge(_, w) => w == window && OneInsert(acts[1..], id, window)
    case _ => OneInsert(acts[1..], id, window)
  }

  predicate NoInsert(acts: seq<Action>, window: real) {
    acts == [] || (!acts[0].Insert? && (acts[0].Purge? ==> acts[0].window == window) && NoInsert(acts[1..], window))
  }

  lemma {:induction false} NoInsertLive(m: Machine, acts: seq<Action>, i: nat, window: real)
    requires Live(m, i, window) && NoInsert(acts, window)
    ensures Live(ApplyAll(m, acts), i, window)
    decreases |acts|
  {
    if acts != [] {
      ApplyLive(m, acts[0], i, window);
      NoInsertLive(Apply(m, acts[0]), acts[1..], i, window);
    }
  }

  /** Before the insertion nothing enters the cache. */
  lemma StaysMissing(m: Machine, a: Action, id: string)
    requires id !in m.memory.cache && !a.Insert? && !a.Restart?
    ensures id !in Apply(m, a).memory.cache
  {
  }

  lemma {:induction false} OneInsertLive(m: Machine, acts: seq<Action>, i: nat, id: string, window: real)
    requires Live(m, i, window) && OneInsert(acts, id, window) && id !in m.memory.cache
    ensures Live(ApplyAll(m, acts), i, window)
    decreases |acts|
  {
    if acts != [] {
      ApplyLive(m, acts[0], i, window);
      if acts[0].Insert? || acts[0].Restart? {
        NoInsertLive(Apply(m, acts[0]), acts[1..], i, window);
      } else {
        StaysMissing(m, acts[0], id);
        OneInsertLive(Apply(m, acts[0]), acts[1..], i, id, window);
      }
    }
  }

  /** A new entry is live at the end of the list that inserts it. */
  lemma {:induction false} InsertedLive(m: Machine, acts: seq<Action>, id: string, window: real, k: nat)
    requires OneInsert(acts, id, window) && |m.log| <= k < |ApplyAll(m, acts).log| && ApplyAll(m, acts).log[k].Inserted?
    ensures Live(ApplyAll(m, acts), k, window)
    decreases |acts|
  {
    var m1 := Apply(m, acts[0]);
    LogGrows(m1, acts[1..]);
    if acts[0].Insert? && k == |m.log| {
      NoInsertLive(m1, acts[1..], k, window);
    } else if acts[0].Insert? || acts[0].Restart? {
      NoInsertNoEvent(m1, acts[1..], window, k);
    } else {
      InsertedLive(m1, acts[1..], id, window, k);
    }
  }

  lemma {:induction false} NoInsertNoEvent(m: Machine, acts: seq<Action>, window: real, k: nat)
    requires NoInsert(acts, window) && |m.log| <= k < |ApplyAll(m, acts).log|
    ensures !ApplyAll(m, acts).log[k].Inserted?
    decreases |acts|
  {
    var m1 := Apply(m, acts[0]);
    LogGrows(m1, acts[1..]);
    if k >= |m1.log| { NoInsertNoEvent(m1, acts[1..], window, k); }
  }

  // Plans insert once, and only what is missing

  lemma CutStep(acts: seq<Action>, n: nat, readable: bool)
    requires acts != [] && n > 0
    ensures var cut := Upto(acts, n) + [Restart(readable)];
            cut[0] == acts[0] && cut[1..] == Upto(acts[1..], n - 1) + [Restart(readable)]
  {
  }

  lemma {:induction false} NoInsertCut(acts: seq<Action>, n: nat, readable: bool, window: real)
    requires NoInsert(acts, window)
    ensures NoInsert(Upto(acts, n) + [Restart(readable)], window)
    decreases |acts|
  {
    var cut := Upto(acts, n) + [Restart(readable)];
    if n == 0 || acts == [] {
      assert cut == [Restart(readable)];
    } else {
      CutStep(acts, n, readable);
      NoInsertCut(acts[1..], n - 1, readable, window);
    }
  }

  lemma {:induction false} OneInsertCut(acts: seq<Action>, n: nat, readable: bool, id: string, window: real)
    requires OneInsert(acts, id, window)
    ensures OneInsert(Upto(acts, n) + [Restart(readable)], id, window)
    decreases |acts|
  {
    var cut := Upto(acts, n) + [Restart(readable)];
    if n == 0 || acts == [] {
      assert cut == [Restart(readable)];
    } else {
      CutStep(acts, n, readable);
      if acts[0].Insert? || acts[0].Restart? {
        NoInsertCut(acts[1..], n - 1, readable, window);
      } else {
        OneInsertCut(acts[1..], n - 1, readable, id, window);
      }
    }
  }

  lemma CacheOnce(c: Connection, response: string, window: real, audited: bool)
    ensures OneInsert(CachePlan(c, response, window, audited), c.id, window)
  {
    if c.signs {
      var acts := CachePlan(c, response, window, audited);
      assert acts[3..][1..] == [] && NoInsert(acts[3..], window);
      assert acts[2..][1..] == acts[3..] && NoInsert(acts[2..], window);
      assert acts[1..][1..] == acts[2..] && NoInsert(acts[1..], window);
    } else {
      assert [Abort(c.id)][1..] == [];
    }
  }

  lemma PlanOnce(d: Data, c: Connection, window: real)
    requires c.id !in d.cache
    ensures OneInsert(Plan(d, c, window), c.id, window)
  {
    CacheOnce(c, c.timeError, window, true);
    CacheOnce(c, c.signatureError, window, true);
    CacheOnce(c, c.replayError, window, true);
    CacheOnce(c, c.response, window, c.audited);
    var rest, acts := CachePlan(c, c.response, window, c.audited), ExecutePlan(c, window);
    if c.claimSaved {
      assert acts[1..][1..] == EffectPlan(c.effect) + rest;
      if c.effect.Nothing? {
        assert EffectPlan(c.effect) + rest == rest;
      } else {
        assert (EffectPlan(c.effect) + rest)[1..] == rest;
      }
    } else {
      assert acts[1..][1..] == [];
    }
  }

  lemma StepOnce(m: Machine, s: Step, window: real)
    ensures Delivers(s) && s.c.id !in m.memory.cache ==> OneInsert(StepActions(m, s, window), s.c.id, window)
    ensures !Delivers(s) || s.c.id in m.memory.cache ==> NoInsert(StepActions(m, s, window), window)
  {
    if Delivers(s) && s.c.id !in m.memory.cache {
      PlanOnce(m.memory, s.c, window);
      if s.CrashIn? { OneInsertCut(Plan(m.memory, s.c, window), s.upTo, s.readable, s.c.id, window); }
    } else if Delivers(s) {
      var plan := Plan(m.memory, s.c, window);
      assert plan[1..] == [];
      if s.CrashIn? { NoInsertCut(plan, s.upTo, s.readable, window); }
    } else {
      assert StepActions(m, s, window)[1..] == [];
    }
  }

  lemma StepLive(m: Machine, s: Step, window: real, i: nat)
    requires Live(m, i, window)
    ensures Live(After(m, s, window), i, window)
  {
    StepOnce(m, s, window);
    if Delivers(s) && s.c.id !in m.memory.cache {
      OneInsertLive(m, StepActions(m, s, window), i, s.c.id, window);
    } else {
      NoInsertLive(m, StepActions(m, s, window), i, window);
    }
  }

  lemma StepInserts(m: Machine, s: Step, window: real, k: nat)
    requires |m.log| <= k < |After(m, s, window).log| && After(m, s, window).log[k].Inserted?
    ensures Live(After(m, s, window), k, window)
  {
    StepOnce(m, s, window);
    if Delivers(s) && s.c.id !in m.memory.cache {
      InsertedLive(m, StepActions(m, s, window), s.c.id, window, k);
    } else {
      NoInsertNoEvent(m, StepActions(m, s, window), window, k);
    }
  }

  lemma {:induction false} RunLive(m: Machine, steps: seq<Step>, window: real, i: nat)
    requires m.log == [] && i < |Run(m, steps, window).log| && Run(m, steps, window).log[i].Inserted?
    ensures Live(Run(m, steps, window), i, window)
  {
    if steps != [] {
      var n := |steps| - 1;
      var p := Run(m, steps[..n], window);
      LogGrows(p, StepActions(p, steps[n], window));
      if i < |p.log| {
        RunLive(m, steps[..n], window, i);
        StepLive(p, steps[n], window, i);
      } else {
        StepInserts(p, steps[n], window, i);
      }
    }
  }

  // Actions and the events they record

  function EventFor(a: Action): Event {
    match a
    case Insert(id, entry) => Inserted(id, entry.timestamp, entry.response)
    case Abort(id) => Aborted(id)
    case Reply(id, response) => Replied(id, response)
    case Restart(readable) => Restarted(readable)
    case _ => Reset
  }

  predicate Logs(a: Action) { a.Insert? || a.Abort? || a.Reply? || a.Restart? }

  lemma {:induction false} Logged(m: Machine, acts: seq<Action>, a: Action) returns (k: nat)
    requires a in acts && Logs(a)
    ensures |m.log| <= k < |ApplyAll(m, acts).log| && ApplyAll(m, acts).log[k] == EventFor(a)
    decreases |acts|
  {
    var m1 := Apply(m, acts[0]);
    LogGrows(m1, acts[1..]);
    if acts[0] == a {
      k := |m.log|;
      assert m1.log[k] == EventFor(a);
    } else {
      assert a in acts[1..];
      k := Logged(m1, acts[1..], a);
    }
  }

  /** An insertion or a reply in the history was an action of the step. */
  lemma {:induction false} LoggedBy(m: Machine, acts: seq<Action>, k: nat) returns (a: Action)
    requires |m.log| <= k < |ApplyAll(m, acts).log|
    requires ApplyAll(m, acts).log[k].Inserted? || ApplyAll(m, acts).log[k].Replied?
    ensures a in acts && Logs(a) && EventFor(a) == ApplyAll(m, acts).log[k]
    decreases |acts|
  {
    var m1 := Apply(m, acts[0]);
    LogGrows(m1, acts[1..]);
    if k < |m1.log| {
      a := acts[0];
    } else {
      a := LoggedBy(m1, acts[1..], k);
    }
  }

  /** The one response a request gets when its id is not cached. */
  function ResponseOf(d: Data, c: Connection): string {
    if !c.timely then c.timeError
    else if !c.signed then c.signatureError
    else if c.number <= Last(d, c.kid) then c.replayError
    else c.response
  }

  predicate Says(a: Action, id: string, response: string) {
    && (a.Insert? ==> a.id == id && a.entry.response == response)
    && (a.Reply? ==> a == Reply(id, response))
  }

  predicate AllSay(acts: seq<Action>, id: string, response: string) { forall a :: a in acts ==> Says(a, id, response) }

  lemma CacheSays(c: Connection, response: string, window: real, audited: bool)
    ensures AllSay(CachePlan(c, response, window, audited), c.id, response)
  {
  }

  lemma PlanSays(d: Data, c: Connection, window: real)
    ensures AllSay(Plan(d, c, window), c.id, if c.id in d.cache then d.cache[c.id].response else ResponseOf(d, c))
  {
    CacheSays(c, ResponseOf(d, c), window, true);
    CacheSays(c, c.response, window, c.audited);
    var rest := CachePlan(c, c.response, window, c.audited);
    assert AllSay(EffectPlan(c.effect) + rest, c.id, c.response);
    assert AllSay([Perform(c.kid, c.number, c.id)] + (EffectPlan(c.effect) + rest), c.id, c.response);
  }

  /** A step inserts and replies for its own id only, always with the same response. */
  lemma StepSays(m: Machine, s: Step, window: real, k: nat)
    requires |m.log| <= k < |After(m, s, window).log|
    requires After(m, s, window).log[k].Inserted? || After(m, s, window).log[k].Replied?
    ensures Delivers(s) && After(m, s, window).log[k].id == s.c.id
    ensures After(m, s, window).log[k].response
            == if s.c.id in m.memory.cache then m.memory.cache[s.c.id].response else ResponseOf(m.memory, s.c)
  {
    var a := LoggedBy(m, StepActions(m, s, window), k);
    if Delivers(s) {
      PlanSays(m.memory, s.c, window);
      assert a in Plan(m.memory, s.c, window);
    }
  }

  lemma OverSlice(log: seq<Event>, log': seq<Event>, i: nat, j: nat, t: real, window: real)
    requires log <= log' && i < |log| <= j <= |log'| && Over(log[i + 1..], t, window)
    ensures Over(log'[i + 1..j], t, window)
  {
    OverLater(log[i + 1..], log'[|log|..j], t, window);
    assert log'[i + 1..j] == log[i + 1..] + log'[|log|..j];
  }

  /**
   Every reply to an id is the response first cached for it, until the entry's
   time is over; a restart that reads a file saved since does not end it.
   */
  lemma {:induction false} SameReply(m: Machine, steps: seq<Step>, window: real, i: nat, j: nat)
    requires m.log == [] && i < j < |Run(m, steps, window).log|
    requires Run(m, steps, window).log[i].Inserted? && Run(m, steps, window).log[j].Replied?
    requires Run(m, steps, window).log[i].id == Run(m, steps, window).log[j].id
    ensures Over(Run(m, steps, window).log[i + 1..j], Run(m, steps, window).log[i].timestamp, window) ||
            Run(m, steps, window).log[j].response == Run(m, steps, window).log[i].response
  {
    if steps != [] {
      var n := |steps| - 1;
      var p, s := Run(m, steps[..n], window), steps[n];
      LogGrows(p, StepActions(p, s, window));
      if j < |p.log| {
        SameReply(m, steps[..n], window, i, j);
        assert Run(m, steps, window).log[i + 1..j] == p.log[i + 1..j];
      } else {
        StepSays(p, s, window, j);
        if i < |p.log| {
          RunLive(m, steps[..n], window, i);
          if Over(p.log[i + 1..], p.log[i].timestamp, window) {
            OverSlice(p.log, Run(m, steps, window).log, i, j, p.log[i].timestamp, window);
          }
        } else {
          StepSays(p, s, window, i);
        }
      }
    }
  }

  // No second execution within the window

  /** The time of the entry for `id` inserted at `a` is over. */
  predicate OverAt(es: seq<Event>, a: nat, id: string, window: real) {
    InsertedAt(es, a, id) && Over(es[a + 1..], es[a].timestamp, window)
  }

  /** A connection or the process ended before a response for `id` was cached. */
  predicate CutShort(es: seq<Event>, id: string) {
    exists k :: 0 <= k < |es| && (es[k] == Aborted(id) || es[k].Restarted?) && !InsertedIn(es[..k], id)
  }

  /** The reasons a request id may be executed again: no response was cached, or its time was over. */
  predicate Excused(es: seq<Event>, id: string, window: real) {
    CutShort(es, id) || exists a :: 0 <= a < |es| && OverAt(es, a, id, window)
  }

  predicate InsertedAt(es: seq<Event>, a: nat, id: string) { a < |es| && es[a].Inserted? && es[a].id == id }

  predicate InsertedIn(es: seq<Event>, id: string) { exists a :: 0 <= a < |es| && InsertedAt(es, a, id) }

  /** After an execution the response was cached, unless the connection was cut short. */
  predicate Secured(es: seq<Event>, id: string) { CutShort(es, id) || InsertedIn(es, id) }

  lemma SecuredLater(es: seq<Event>, more: seq<Event>, id: string)
    requires Secured(es, id)
    ensures Secured(es + more, id)
  {
    if CutShort(es, id) {
      var k :| 0 <= k < |es| && (es[k] == Aborted(id) || es[k].Restarted?) && !InsertedIn(es[..k], id);
      assert (es + more)[k] == es[k] && (es + more)[..k] == es[..k];
    } else {
      var a :| 0 <= a < |es| && InsertedAt(es, a, id);
      assert InsertedAt(es + more, a, id);
    }
  }

  lemma TailEnds(m: Machine, s: Step, window: real) returns (a: Action)
    requires Delivers(s) && Executes(m.memory, s.c) && |StepActions(m, s, window)| >= 2
    requires StepActions(m, s, window)[1].Perform?
    ensures a in StepActions(m, s, window)[2..]
    ensures a.Restart? || a == Abort(s.c.id) || (a.Insert? && a.id == s.c.id)
  {
    var plan, acts := Plan(m.memory, s.c, window), StepActions(m, s, window);
    var cache := CachePlan(s.c, s.c.response, window, s.c.audited);
    if s.Connect? {
      assert plan[2..] == EffectPlan(s.c.effect) + cache;
      a := cache[0];
    } else {
      a := Restart(s.readable);
      assert acts[2..][|acts| - 3] == a;
    }
  }

  lemma SecuredBy(es: seq<Event>, k: nat, id: string)
    requires k < |es| && (es[k].Restarted? || es[k] == Aborted(id) || (es[k].Inserted? && es[k].id == id))
    ensures Secured(es, id)
  {
    if es[k].Inserted? {
      assert InsertedAt(es, k, id);
    } else if InsertedIn(es[..k], id) {
      var a :| 0 <= a < |es[..k]| && InsertedAt(es[..k], a, id);
      assert InsertedAt(es, a, id);
    }
  }

  /** A list that restarts, aborts or inserts leaves a trace of it. */
  lemma ListSecures(m: Machine, acts: seq<Action>, a: Action, id: string)
    requires a in acts && (a.Restart? || a == Abort(id) || (a.Insert? && a.id == id))
    ensures m.log <= ApplyAll(m, acts).log && Secured(ApplyAll(m, acts).log[|m.log|..], id)
  {
    LogGrows(m, acts);
    var b := Logged(m, acts, a);
    var es := ApplyAll(m, acts).log[|m.log|..];
    assert es[b - |m.log|] == EventFor(a);
    SecuredBy(es, b - |m.log|, id);
  }

  lemma StepSecures(m: Machine, s: Step, window: real, k: nat)
    requires |m.log| <= k < |After(m, s, window).log| && After(m, s, window).log[k].Executed?
    ensures Secured(After(m, s, window).log[k + 1..], After(m, s, window).log[k].id)
  {
    var acts := StepActions(m, s, window);
    StepExecutes(m, s, window, k);
    StepShape(m, s, window);
    if NoPerform(acts) {
      NoPerformNoExecution(m, acts, k);
    } else {
      var a := TailEnds(m, s, window);
      ClaimPerform(m, s.c);
      TwoThenRest(m, acts);
      ListSecures(Apply(Apply(m, acts[0]), acts[1]), acts[2..], a, s.c.id);
    }
  }

  lemma SecuredSlice(log: seq<Event>, log': seq<Event>, i: nat)
    requires log <= log' && i < |log| && log[i].Executed? && Secured(log[i + 1..], log[i].id)
    ensures Secured(log'[i + 1..], log'[i].id)
  {
    SecuredLater(log[i + 1..], log'[|log|..], log[i].id);
    assert log'[i + 1..] == log[i + 1..] + log'[|log|..];
  }

  lemma {:induction false} RunSecures(m: Machine, steps: seq<Step>, window: real, i: nat)
    requires m.log == [] && i < |Run(m, steps, window).log| && Run(m, steps, window).log[i].Executed?
    ensures Secured(Run(m, steps, window).log[i + 1..], Run(m, steps, window).log[i].id)
  {
    if steps != [] {
      var n := |steps| - 1;
      var p, s := Run(m, steps[..n], window), steps[n];
      LogGrows(p, StepActions(p, s, window));
      if i < |p.log| {
        RunSecures(m, steps[..n], window, i);
        SecuredSlice(p.log, Run(m, steps, window).log, i);
      } else {
        StepExecutes(p, s, window, i);
        StepSecures(p, s, window, i);
      }
    }
  }

  /** A live entry that is no longer cached is over. */
  lemma GoneEntry(p: Machine, i: nat, a: nat, id: string, window: real)
    requires i < |p.log| && id !in p.memory.cache && Live(p, i + 1 + a, window)
    requires InsertedAt(p.log[i + 1..], a, id)
    ensures Excused(p.log[i + 1..], id, window)
  {
    assert p.log[i + 1..][a + 1..] == p.log[i + 1 + a + 1..];
    assert OverAt(p.log[i + 1..], a, id, window);
  }

  /** With the id out of the cache, a secured execution is excused. */
  lemma MissingExcuses(m: Machine, steps: seq<Step>, window: real, i: nat, id: string)
    requires m.log == [] && i < |Run(m, steps, window).log| && id !in Run(m, steps, window).memory.cache
    requires Secured(Run(m, steps, window).log[i + 1..], id)
    ensures Excused(Run(m, steps, window).log[i + 1..], id, window)
  {
    var es := Run(m, steps, window).log[i + 1..];
    if !CutShort(es, id) {
      var a: nat :| a < |es| && InsertedAt(es, a, id);
      RunLive(m, steps, window, i + 1 + a);
      GoneEntry(Run(m, steps, window), i, a, id, window);
    }
  }

  /**
   In any run a request id is executed a second time only if the first
   connection, or the process, ended before its response was cached, or the
   cached entry's time was over: a purge ran with it outside the window, a reset,
   a restart that could not read the file, or one before any save succeeded.
   */
  lemma {:induction false} ExecutedOnce(m: Machine, steps: seq<Step>, window: real, i: nat, j: nat)
    requires m.log == [] && i < j < |Run(m, steps, window).log|
    requires Run(m, steps, window).log[i].Executed? && Run(m, steps, window).log[j].Executed?
    requires Run(m, steps, window).log[i].id == Run(m, steps, window).log[j].id
    ensures Excused(Run(m, steps, window).log[i + 1..j], Run(m, steps, window).log[i].id, window)
  {
    if steps != [] {
      var n := |steps| - 1;
      var p, s := Run(m, steps[..n], window), steps[n];
      LogGrows(p, StepActions(p, s, window));
      if j < |p.log| {
        ExecutedOnce(m, steps[..n], window, i, j);
        assert Run(m, steps, window).log[i + 1..j] == p.log[i + 1..j];
      } else {
        StepExecutes(p, s, window, j);
        if i < |p.log| {
          RunSecures(m, steps[..n], window, i);
          MissingExcuses(m, steps[..n], window, i, s.c.id);
          assert Run(m, steps, window).log[i + 1..j] == p.log[i + 1..];
        } else {
          StepExecutes(p, s, window, i);
        }
      }
    }
  }

  // Exactly when a repeat is executed

  lemma PerformsIff(d: Data, c: Connection, window: real)
    ensures Perform(c.kid, c.number, c.id) in Plan(d, c, window) <==> Executes(d, c)
  {
    PlanShape(d, c, window);
    if Executes(d, c) { assert Plan(d, c, window)[1] == Perform(c.kid, c.number, c.id); }
  }

  /** The state after a whole connection that executes. */
  lemma AfterExecution(m: Machine, c: Connection, window: real)
    requires Executes(m.memory, c)
    ensures var m1 := Apply(Apply(m, Claim(c.kid, c.number, true)), Perform(c.kid, c.number, c.id));
            var m2 := ApplyAll(m1, EffectPlan(c.effect));
            After(m, Connect(c), window) == ApplyAll(m2, CachePlan(c, c.response, window, c.audited))
  {
    ThreeParts(m, Claim(c.kid, c.number, true), Perform(c.kid, c.number, c.id),
               EffectPlan(c.effect), CachePlan(c, c.response, window, c.audited));
  }

  lemma EffectKeeps(m: Machine, e: Effect, id: string)
    requires id !in m.memory.cache
    ensures id !in ApplyAll(m, EffectPlan(e)).memory.cache
    ensures !e.Resets? ==> ApplyAll(m, EffectPlan(e)).memory == m.memory
    ensures !e.Resets? && m.file.numbers == m.memory.numbers ==>
              ApplyAll(m, EffectPlan(e)).file.numbers == m.memory.numbers
  {
    if e.Saves? { One(m, Save(e.saved)); }
    if e.Resets? { One(m, ResetState(e.saved)); }
  }

  /** What caching a response leaves: the entry, unless signing failed or its own purge dropped it. */
  lemma CachingLeaves(m: Machine, c: Connection, response: string, window: real, audited: bool)
    requires c.id !in m.memory.cache
    ensures var m' := ApplyAll(m, CachePlan(c, response, window, audited));
            && (c.id in m'.memory.cache <==> c.signs && c.purgeTime - c.insertTime <= window)
            && m'.memory.numbers == m.memory.numbers
            && (m.file.numbers == m.memory.numbers ==> m'.file.numbers == m.memory.numbers)
  {
    var last := if c.cacheSaved && audited then Reply(c.id, response) else Abort(c.id);
    if c.signs {
      Cached(m, c.id, Entry(c.insertTime, c.commandId, response), c.purgeTime, window, c.cacheSaved, last);
    } else {
      One(m, Abort(c.id));
    }
  }

  /**
   After a whole connection that executed, an acceptable connection with the
   same id and a higher number is executed again exactly if the first response
   could not be signed, or its own purge already found it outside the window.
   */
  lemma RepeatExecutes(m: Machine, c: Connection, again: Connection, window: real)
    requires Executes(m.memory, c) && again.id == c.id && again.timely && again.signed && again.claimSaved
    requires again.number > Last(After(m, Connect(c), window).memory, again.kid)
    ensures Perform(again.kid, again.number, again.id) in Plan(After(m, Connect(c), window).memory, again, window) <==>
              !c.signs || c.purgeTime - c.insertTime > window
  {
    var m1 := Apply(Apply(m, Claim(c.kid, c.number, true)), Perform(c.kid, c.number, c.id));
    AfterExecution(m, c, window);
    EffectKeeps(m1, c.effect, c.id);
    CachingLeaves(ApplyAll(m1, EffectPlan(c.effect)), c, c.response, window, c.audited);
    PerformsIff(After(m, Connect(c), window).memory, again, window);
  }

  /**
   After a connection that executed and reset nothing, and a restart, the same
   key and number under an id that is not cached is executed again exactly if
   the restart could not read the state file.
   */
  lemma RestartExecutes(m: Machine, c: Connection, again: Connection, readable: bool, window: real)
    requires Executes(m.memory, c) && !c.effect.Resets? && c.number > 0
    requires again.kid == c.kid && again.number == c.number && again.timely && again.signed && again.claimSaved
    requires again.id !in After(After(m, Connect(c), window), Reboot(readable), window).memory.cache
    ensures var m' := After(After(m, Connect(c), window), Reboot(readable), window);
            Perform(again.kid, again.number, again.id) in Plan(m'.memory, again, window) <==> !readable
  {
    var m1 := Apply(Apply(m, Claim(c.kid, c.number, true)), Perform(c.kid, c.number, c.id));
    AfterExecution(m, c, window);
    EffectKeeps(m1, c.effect, c.id);
    CachingLeaves(ApplyAll(m1, EffectPlan(c.effect)), c, c.response, window, c.audited);
    One(After(m, Connect(c), window), Restart(readable));
    PerformsIff(After(After(m, Connect(c), window), Reboot(readable), window).memory, again, window);
  }

  // What a reset forgets

  lemma AfterReset(m: Machine, c: Connection, window: real)
    requires Executes(m.memory, c) && c.effect.Resets?
    ensures var m1 := Apply(Apply(m, Claim(c.kid, c.number, true)), Perform(c.kid, c.number, c.id));
            After(m, Connect(c), window)
            == ApplyAll(Apply(m1, ResetState(c.effect.saved)), CachePlan(c, c.response, window, c.audited))
  {
    AfterExecution(m, c, window);
    One(Apply(Apply(m, Claim(c.kid, c.number, true)), Perform(c.kid, c.number, c.id)), ResetState(c.effect.saved));
  }

  /** The cache and the file once a response was cached on top of an empty state. */
  lemma CachedAlone(m: Machine, c: Connection, response: string, window: real, audited: bool)
    requires m.memory.numbers == map[] && m.memory.cache == map[]
    ensures var m' := ApplyAll(m, CachePlan(c, response, window, audited));
            && m'.memory.numbers == map[] && m'.memory.cache.Keys <= {c.id}
            && m'.file == if c.signs && c.cacheSaved then m'.memory else m.file
  {
    var last := if c.cacheSaved && audited then Reply(c.id, response) else Abort(c.id);
    if c.signs {
      Cached(m, c.id, Entry(c.insertTime, c.commandId, response), c.purgeTime, window, c.cacheSaved, last);
    } else {
      One(m, Abort(c.id));
    }
  }

  /**
   After a connection that executed a reset no number is left and no response but
   its own; after a restart that reads the file this is still so exactly if the
   reset itself or the caching of its response was saved.
   */
  lemma ResetForgets(m: Machine, c: Connection, window: real)
    requires Executes(m.memory, c) && c.effect.Resets?
    ensures var m' := After(m, Connect(c), window);
            m'.memory.numbers == map[] && m'.memory.cache.Keys <= {c.id}
    ensures var d := After(After(m, Connect(c), window), Reboot(true), window).memory;
            d.numbers == map[] && d.cache.Keys <= {c.id} <==> c.effect.saved || (c.signs && c.cacheSaved)
  {
    var m1 := Apply(Apply(m, Claim(c.kid, c.number, true)), Perform(c.kid, c.number, c.id));
    AfterReset(m, c, window);
    CachedAlone(Apply(m1, ResetState(c.effect.saved)), c, c.response, window, c.audited);
    One(After(m, Connect(c), window), Restart(true));
    assert c.kid in m1.file.numbers;
  }

  /** After a reset a connection under another id is executed exactly if its number is above zero. */
  lemma ResetExecutes(m: Machine, c: Connection, next: Connection, window: real)
    requires Executes(m.memory, c) && c.effect.Resets?
    requires next.id != c.id && next.timely && next.signed && next.claimSaved
    ensures Perform(next.kid, next.number, next.id) in Plan(After(m, Connect(c), window).memory, next, window) <==>
              next.number > 0
  {
    ResetForgets(m, c, window);
    PerformsIff(After(m, Connect(c), window).memory, next, window);
  }

  // The answer of a connection

  /** The error a connection that is not executed is answered with: the first check it fails. */
  function FirstError(c: Connection): string {
    if !c.timely then c.timeError else if !c.signed then c.signatureError else c.replayError
  }

  lemma CachingAnswers(m: Machine, c: Connection, response: string, window: real, audited: bool)
    ensures var m' := ApplyAll(m, CachePlan(c, response, window, audited));
            && m'.memory.numbers == m.memory.numbers
            && m.log <= m'.log && (forall k :: |m.log| <= k < |m'.log| ==> !m'.log[k].Executed?)
            && m'.log != []
            && m'.log[|m'.log| - 1]
               == if c.signs && c.cacheSaved && audited then Replied(c.id, response) else Aborted(c.id)
  {
    var last := if c.cacheSaved && audited then Reply(c.id, response) else Abort(c.id);
    if c.signs {
      Cached(m, c.id, Entry(c.insertTime, c.commandId, response), c.purgeTime, window, c.cacheSaved, last);
    } else {
      One(m, Abort(c.id));
    }
  }

  /**
   A late, unsigned or replayed request under a new id is answered with the error
   of the first check it fails, if that can be signed and saved; it is not
   executed and no number changes.
   */
  lemma RefusedAnswered(m: Machine, c: Connection, window: real)
    requires c.id !in m.memory.cache && (!c.timely || !c.signed || c.number <= Last(m.memory, c.kid))
    ensures var m' := After(m, Connect(c), window);
            && m'.memory.numbers == m.memory.numbers
            && m.log <= m'.log && (forall k :: |m.log| <= k < |m'.log| ==> !m'.log[k].Executed?)
            && m'.log != []
            && m'.log[|m'.log| - 1]
               == if c.signs && c.cacheSaved then Replied(c.id, FirstError(c)) else Aborted(c.id)
  {
    CachingAnswers(m, c, FirstError(c), window, true);
  }

  /** An executed request is answered with the capability's response exactly if that is signed, saved and audited. */
  lemma ExecutedAnswered(m: Machine, c: Connection, window: real)
    requires Executes(m.memory, c)
    ensures var log := After(m, Connect(c), window).log;
            log != [] && log[|log| - 1]
                         == if c.signs && c.cacheSaved && c.audited then Replied(c.id, c.response) else Aborted(c.id)
  {
    var m1 := Apply(Apply(m, Claim(c.kid, c.number, true)), Perform(c.kid, c.number, c.id));
    AfterExecution(m, c, window);
    CachingAnswers(ApplyAll(m1, EffectPlan(c.effect)), c, c.response, window, c.audited);
  }
}
