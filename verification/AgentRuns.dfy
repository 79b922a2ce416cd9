/**
 Runs of the agent: deliveries, deliveries cut short by a crash, numbers taken
 for other messages, and restarts, in any order and with any file write
 failing.  What the bounded cache then guarantees about execution.
 */
module AgentRuns {
  import opened Sequences
  import opened AgentStore
  import opened AgentDelivery

  /** `disk(k)` is the outcome of the file write in the step's k-th action. */
  datatype Step =
    | Deliver(d: Delivery, disk: nat -> bool)
    | DieDuring(d: Delivery, upTo: nat, files: Files, disk: nat -> bool)
    | Tick(disk: nat -> bool)     // AUTH, a heartbeat or an outgoing message takes a number
    | Reboot(files: Files, disk: nat -> bool)

  datatype Config = Config(device: string, outOfOrder: bool)

  function Upto(actions: seq<Action>, n: nat): seq<Action> { if n < |actions| then actions[..n] else actions }

  function StepActions(c: Config, m: Machine, s: Step): seq<Action> {
    match s
    case Deliver(d, _) => Plan(m.store, d, c.device, c.outOfOrder)
    case DieDuring(d, n, files, _) => Upto(Plan(m.store, d, c.device, c.outOfOrder), n) + [Restart(files)]
    case Tick(_) => [TakeSequence]
    case Reboot(files, _) => [Restart(files)]
  }

  function After(c: Config, m: Machine, s: Step): Machine { ApplyAll(m, StepActions(c, m, s), s.disk) }

  function Run(c: Config, m: Machine, steps: seq<Step>): Machine {
    if steps == [] then m else After(c, Run(c, m, steps[..|steps| - 1]), steps[|steps| - 1])
  }

  /** Both copies of the cache are ones the store could have written; no history yet. */
  predicate Initial(m: Machine) {
    ValidCache(m.store.processed) && ValidCache(m.storeFile.processed) && m.history == []
  }

  predicate Sound(m: Machine) { ValidCache(m.store.processed) && ValidCache(m.storeFile.processed) }

  // History bookkeeping

  /** The other commands remembered in a stretch of history. */
  function Others(es: seq<Event>, id: string): set<string> {
    set e | e in es && e.Remembered? && e.id != id :: e.id
  }

  /** A restart that lost cached commands: some write had failed, or the file could not be read. */
  predicate LossyRestart(es: seq<Event>) { exists k :: 0 <= k < |es| && es[k].Restarted? && es[k].lostCommands }

  /** The process died before the command was remembered. */
  predicate DiedFirst(es: seq<Event>, id: string) {
    exists k :: 0 <= k < |es| && es[k].Restarted? && Remembered(id) !in es[..k]
  }

  /** One of the three reasons a command may be executed again. */
  predicate Excused(es: seq<Event>, id: string) {
    DiedFirst(es, id) || LossyRestart(es) || |Others(es, id)| >= MAX_PROCESSED
  }

  lemma ExcusedLater(es: seq<Event>, more: seq<Event>, id: string)
    requires Excused(es, id)
    ensures Excused(es + more, id)
  {
    var all := es + more;
    if LossyRestart(es) {
      var k :| 0 <= k < |es| && es[k].Restarted? && es[k].lostCommands;
      assert all[k] == es[k];
    } else if DiedFirst(es, id) {
      var k :| 0 <= k < |es| && es[k].Restarted? && Remembered(id) !in es[..k];
      assert all[k] == es[k] && all[..k] == es[..k];
    } else {
      OthersGrow(es, more, id);
    }
  }

  lemma OthersGrow(es: seq<Event>, more: seq<Event>, id: string)
    ensures Others(es, id) <= Others(es + more, id)
    ensures |Others(es, id)| <= |Others(es + more, id)|
  {
    var a, b := Others(es, id), Others(es + more, id);
    forall x | x in a ensures x in b {
      var e :| e in es && e.Remembered? && e.id != id && e.id == x;
      assert e in es + more;
    }
    Cardinal(a, b);
  }

  lemma {:induction false} Cardinal(a: set<string>, b: set<string>)
    requires a <= b
    ensures |a| <= |b|
  {
    assert b == a + (b - a);
  }

  // The cache protects a remembered command

  /** The ids queued behind position `k`. */
  function Behind(ps: seq<ProcessedCommand>, k: nat): set<string> {
    set j | k < j < |ps| :: ps[j].commandId
  }

  predicate Guarded(m: Machine, i: nat, id: string) {
    i < |m.history| && (Excused(m.history[i + 1..], id) || Held(m.store.processed, Others(m.history[i + 1..], id), id))
  }

  lemma {:induction false} BehindSize(ps: seq<ProcessedCommand>, k: nat)
    requires DistinctIds(ps) && k < |ps|
    ensures |Behind(ps, k)| == |ps| - k - 1
    decreases |ps| - k
  {
    if k + 1 < |ps| {
      BehindSize(ps, k + 1);
      assert Behind(ps, k) == Behind(ps, k + 1) + {ps[k + 1].commandId};
      assert ps[k + 1].commandId !in Behind(ps, k + 1);
    } else {
      assert Behind(ps, k) == {};
    }
  }

  /** Replacing an entry leaves everything behind `id` where it was. */
  lemma ReplaceGuards(ps: seq<ProcessedCommand>, id: string, c: ProcessedCommand)
    requires ValidCache(ps) && Cached(ps, id) && Cached(ps, c.commandId)
    ensures Find(Remember(ps, c), id) == Find(ps, id) < |Remember(ps, c)|
    ensures Behind(Remember(ps, c), Find(ps, id)) == Behind(ps, Find(ps, id))
  {
    var ps', k := Remember(ps, c), Find(ps, id);
    assert forall j :: 0 <= j < |ps| ==> ps'[j].commandId == ps[j].commandId;
    SameFind(ps, ps', id);
    BehindSame(ps, ps', k);
  }

  lemma BehindSame(ps: seq<ProcessedCommand>, ps': seq<ProcessedCommand>, k: nat)
    requires |ps| == |ps'| && forall j :: 0 <= j < |ps| ==> ps'[j].commandId == ps[j].commandId
    ensures Behind(ps', k) == Behind(ps, k)
  {
  }

  /** A new entry that pushes `id` out is the 256th other one. */
  lemma EvictionCounts(ps: seq<ProcessedCommand>, others: set<string>, c: ProcessedCommand)
    requires ValidCache(ps) && |ps| == MAX_PROCESSED && c.commandId != "" && !Cached(ps, c.commandId)
    requires Behind(ps, 0) <= others && c.commandId in others
    ensures |others| >= MAX_PROCESSED
  {
    BehindSize(ps, 0);
    assert c.commandId !in Behind(ps, 0);
    Cardinal(Behind(ps, 0) + {c.commandId}, others);
  }

  /** The cache with `drop` entries (none or one) gone from the front and one more at the back. */
  lemma PushGuards(ps: seq<ProcessedCommand>, drop: nat, c: ProcessedCommand, id: string)
    requires drop <= 1 && drop <= Find(ps, id) < |ps|
    requires c.commandId != id
    ensures Find(ps[drop..] + [c], id) == Find(ps, id) - drop
    ensures Behind(ps[drop..] + [c], Find(ps, id) - drop) == Behind(ps, Find(ps, id)) + {c.commandId}
  {
    var ps', k := ps[drop..] + [c], Find(ps, id);
    assert forall j :: 0 <= j < |ps'| - 1 ==> ps'[j] == ps[j + drop];
    assert ps'[k - drop].commandId == id;
    assert forall j :: 0 <= j < k - drop ==> ps'[j].commandId != id;
    BehindPush(ps, drop, c, k);
  }

  lemma BehindPush(ps: seq<ProcessedCommand>, drop: nat, c: ProcessedCommand, k: nat)
    requires drop <= k < |ps|
    ensures Behind(ps[drop..] + [c], k - drop) == Behind(ps, k) + {c.commandId}
  {
    var ps' := ps[drop..] + [c];
    assert forall j :: 0 <= j < |ps'| - 1 ==> ps'[j] == ps[j + drop];
    forall x | x in Behind(ps', k - drop) ensures x in Behind(ps, k) + {c.commandId} {
      var j :| k - drop < j < |ps'| && ps'[j].commandId == x;
      if j < |ps'| - 1 { assert ps[j + drop].commandId == x; }
    }
    forall x | x in Behind(ps, k) ensures x in Behind(ps', k - drop) {
      var j :| k < j < |ps| && ps[j].commandId == x;
      assert ps'[j - drop].commandId == x;
    }
    assert ps'[|ps'| - 1].commandId == c.commandId;
  }

  /** The command is cached and everything queued behind it is among `others`. */
  predicate Held(ps: seq<ProcessedCommand>, others: set<string>, id: string) {
    Cached(ps, id) && Behind(ps, Find(ps, id)) <= others
  }

  lemma PushHeld(ps: seq<ProcessedCommand>, drop: nat, c: ProcessedCommand, others: set<string>, id: string)
    requires drop <= 1 && drop <= Find(ps, id)
    requires Held(ps, others, id) && c.commandId in others && c.commandId != id
    ensures Held(ps[drop..] + [c], others, id)
  {
    PushGuards(ps, drop, c, id);
  }

  lemma RememberNew(ps: seq<ProcessedCommand>, c: ProcessedCommand)
    requires |ps| <= MAX_PROCESSED && c.commandId != "" && !Cached(ps, c.commandId)
    ensures Remember(ps, c) == ps[if |ps| < MAX_PROCESSED then 0 else 1..] + [c]
  {
  }

  /** A new entry either leaves `id` in the cache or is at least the 256th other one. */
  lemma AddGuards(ps: seq<ProcessedCommand>, others: set<string>, id: string, c: ProcessedCommand)
    requires ValidCache(ps) && c.commandId != "" && !Cached(ps, c.commandId)
    requires Held(ps, others, id) && c.commandId in others
    ensures Held(Remember(ps, c), others, id) || |others| >= MAX_PROCESSED
  {
    var drop := if |ps| < MAX_PROCESSED then 0 else 1;
    RememberNew(ps, c);
    if drop <= Find(ps, id) {
      PushHeld(ps, drop, c, others, id);
    } else {
      EvictionCounts(ps, others, c);
    }
  }

  /** Remembering another command either keeps `id` cached or completes 256 others. */
  lemma RememberGuards(ps: seq<ProcessedCommand>, es: seq<Event>, id: string, c: ProcessedCommand)
    requires ValidCache(ps) && c.commandId != "" && Held(ps, Others(es, id), id)
    ensures var others := Others(es + [Remembered(c.commandId)], id);
            Held(Remember(ps, c), others, id) || |others| >= MAX_PROCESSED
  {
    var es' := es + [Remembered(c.commandId)];
    OthersGrow(es, [Remembered(c.commandId)], id);
    if Cached(ps, c.commandId) {
      ReplaceGuards(ps, id, c);
    } else {
      assert c.commandId in Others(es', id) by { assert Remembered(c.commandId) in es'; }
      AddGuards(ps, Others(es', id), id, c);
    }
  }

  lemma FindIs(ps: seq<ProcessedCommand>, k: nat, id: string)
    requires DistinctIds(ps) && k < |ps| && ps[k].commandId == id
    ensures Find(ps, id) == k
  {
  }

  lemma SameFind(ps: seq<ProcessedCommand>, ps': seq<ProcessedCommand>, id: string)
    requires |ps| == |ps'| && DistinctIds(ps) && Find(ps, id) < |ps|
    requires forall j :: 0 <= j < |ps| ==> ps'[j].commandId == ps[j].commandId
    ensures Find(ps', id) == Find(ps, id)
  {
  }

  /** No action, saved or not, leaves a guarded command unguarded, and none unsettles the caches. */
  lemma ApplyGuards(m: Machine, a: Action, saved: bool, i: nat, id: string)
    requires Sound(m) && Guarded(m, i, id)
    ensures Guarded(Apply(m, a, saved), i, id)
  {
    var es, more := m.history[i + 1..], NewEvents(m, a);
    ApplyTail(m, a, saved, i);
    if Excused(es, id) {
      ExcusedLater(es, more, id);
    } else if a.RememberEntry? && a.entry.commandId != "" {
      RememberGuards(m.store.processed, es, id, a.entry);
    } else {
      OthersGrow(es, more, id);
      if a.Restart? && more[0].lostCommands { assert (es + more)[|es|] == more[0]; }
    }
  }

  lemma ApplySound(m: Machine, a: Action, saved: bool)
    requires Sound(m)
    ensures Sound(Apply(m, a, saved))
    ensures m.history <= Apply(m, a, saved).history
  {
    if a.RememberEntry? { RememberKeepsCache(m.store.processed, a.entry); }
    if a.Restart? { LoadSaved(m.storeFile); }
  }

  // Lists of actions

  lemma {:induction false} ApplyAllGuards(m: Machine, acts: seq<Action>, disk: nat -> bool, i: nat, id: string)
    requires Sound(m) && Guarded(m, i, id)
    ensures Sound(ApplyAll(m, acts, disk)) && Guarded(ApplyAll(m, acts, disk), i, id)
  {
    if acts != [] {
      var n := |acts| - 1;
      ApplyAllGuards(m, acts[..n], disk, i, id);
      ApplySound(ApplyAll(m, acts[..n], disk), acts[n], disk(n));
      ApplyGuards(ApplyAll(m, acts[..n], disk), acts[n], disk(n), i, id);
    }
  }

  lemma {:induction false} ApplyAllSound(m: Machine, acts: seq<Action>, disk: nat -> bool)
    requires Sound(m)
    ensures Sound(ApplyAll(m, acts, disk)) && m.history <= ApplyAll(m, acts, disk).history
  {
    if acts != [] {
      var n := |acts| - 1;
      ApplyAllSound(m, acts[..n], disk);
      ApplySound(ApplyAll(m, acts[..n], disk), acts[n], disk(n));
    }
  }

  predicate NoExecution(acts: seq<Action>) { forall a :: a in acts ==> !a.Execute? }

  /** No execution is recorded in `es`. */
  predicate Quiet(es: seq<Event>) { forall e :: e in es ==> !e.Executed? }

  /** The part of the history an action adds. */
  function Added(m: Machine, m': Machine): seq<Event>
    requires |m.history| <= |m'.history|
  {
    m'.history[|m.history|..]
  }

  lemma ApplyQuiet(m: Machine, a: Action, saved: bool)
    requires !a.Execute?
    ensures m.history <= Apply(m, a, saved).history && Quiet(Added(m, Apply(m, a, saved)))
  {
  }

  lemma AddedJoin(m: Machine, m1: Machine, m2: Machine)
    requires m.history <= m1.history <= m2.history
    ensures m.history <= m2.history && Added(m, m2) == Added(m, m1) + Added(m1, m2)
  {
  }

  lemma {:induction false} ApplyAllQuiet(m: Machine, acts: seq<Action>, disk: nat -> bool)
    requires NoExecution(acts)
    ensures m.history <= ApplyAll(m, acts, disk).history && Quiet(Added(m, ApplyAll(m, acts, disk)))
  {
    if acts != [] {
      var n := |acts| - 1;
      var m1 := ApplyAll(m, acts[..n], disk);
      ApplyAllQuiet(m, acts[..n], disk);
      ApplyQuiet(m1, acts[n], disk(n));
      AddedJoin(m, m1, Apply(m1, acts[n], disk(n)));
    }
  }

  // One step, cut at its execution

  function Later(disk: nat -> bool, n: nat): nat -> bool { (k: nat) => disk(n + k) }

  lemma Regroup(a: seq<Action>, b: seq<Action>)
    requires b != []
    ensures a + b == (a + b[..|b| - 1]) + [b[|b| - 1]]
  {
  }

  lemma {:induction false} ApplyConcat(m: Machine, a: seq<Action>, b: seq<Action>, disk: nat -> bool)
    ensures ApplyAll(m, a + b, disk) == ApplyAll(ApplyAll(m, a, disk), b, Later(disk, |a|))
    decreases |b|
  {
    if b == [] {
      assert a + b == a;
    } else {
      var n := |b| - 1;
      ApplyConcat(m, a, b[..n], disk);
      ConcatStep(m, ApplyAll(m, a, disk), a + b[..n], b[..n], b[n], disk, Later(disk, |a|));
      Regroup(a, b);
      Regroup([], b);
    }
  }

  lemma ConcatStep(m: Machine, m1: Machine, a: seq<Action>, b: seq<Action>, x: Action,
                   disk: nat -> bool, later: nat -> bool)
    requires ApplyAll(m, a, disk) == ApplyAll(m1, b, later) && disk(|a|) == later(|b|)
    ensures ApplyAll(m, a + [x], disk) == ApplyAll(m1, b + [x], later)
  {
  }

  /** What the agent does for a delivery, whatever it did before, is one step of a run. */
  lemma DeliveryIsStep(c: Config, start: Machine, trace: seq<Action>, d: Delivery, disk: nat -> bool)
    ensures var m := ApplyAll(start, trace, disk);
            ApplyAll(start, trace + Plan(m.store, d, c.device, c.outOfOrder), disk)
            == After(c, m, Deliver(d, Later(disk, |trace|)))
  {
    ApplyConcat(start, trace, Plan(ApplyAll(start, trace, disk).store, d, c.device, c.outOfOrder), disk);
  }

  /** Neither executes, remembers nor restarts. */
  predicate CalmAction(a: Action) { !a.Execute? && !a.RememberEntry? && !a.Restart? }

  predicate Calm(acts: seq<Action>) {
    forall a :: a in acts ==> CalmAction(a)
  }

  predicate CalmEvents(es: seq<Event>) {
    forall e :: e in es ==> !e.Executed? && !e.Remembered? && !e.Restarted?
  }

  lemma ApplyCalm(m: Machine, a: Action, saved: bool)
    requires CalmAction(a)
    ensures var m' := Apply(m, a, saved);
            m.history <= m'.history && CalmEvents(Added(m, m')) && m'.store.processed == m.store.processed
  {
  }

  lemma {:induction false} ApplyAllCalm(m: Machine, acts: seq<Action>, disk: nat -> bool)
    requires Calm(acts)
    ensures var m' := ApplyAll(m, acts, disk);
            m.history <= m'.history && CalmEvents(Added(m, m')) && m'.store.processed == m.store.processed
  {
    if acts != [] {
      var n := |acts| - 1;
      var m1 := ApplyAll(m, acts[..n], disk);
      ApplyAllCalm(m, acts[..n], disk);
      ApplyCalm(m1, acts[n], disk(n));
      AddedJoin(m, m1, Apply(m1, acts[n], disk(n)));
    }
  }

  /** How a step that executes `d` can end: remembered, remembered and then killed, or killed before. */
  predicate Ending(rest: seq<Action>, d: Delivery) {
    || rest == [RememberEntry(HandledEntry(d))]
    || (|rest| == 2 && rest[0] == RememberEntry(HandledEntry(d)) && rest[1].Restart?)
    || (|rest| == 1 && rest[0].Restart?)
  }

  function PlanHead(c: Config, d: Delivery): seq<Action> {
    [Miss(d.commandId)]
    + (SetLast(d.deliveryId)
       + When(d.requiresAck && !c.outOfOrder, Ack(d, c.device, "received", ""))
       + [TakeSequence])
  }

  function PlanTail(c: Config, d: Delivery): seq<Action> {
    [Answer(d, c.device, d.response)] + When(d.requiresAck && c.outOfOrder, Ack(d, c.device, "received", ""))
  }

  predicate Executes(m: Machine, d: Delivery) {
    Admitted(m.store, d) && !Cached(m.store.processed, d.commandId) && !Expired(d) && d.capable && d.reachesDaemon
  }

  lemma CalmParts(c: Config, d: Delivery)
    ensures Calm(PlanHead(c, d)) && Calm(PlanTail(c, d))
  {
  }

  lemma HitQuiet(entry: ProcessedCommand, d: Delivery, device: string)
    ensures NoExecution(HitPlan(entry, d, device))
  {
  }

  lemma QuietJoin(a: seq<Action>, b: seq<Action>)
    requires NoExecution(a) && NoExecution(b)
    ensures NoExecution(a + b)
  {
  }

  lemma ExpiredQuiet(d: Delivery, device: string)
    ensures NoExecution(ExpiredPlan(d, device))
  {
  }

  lemma BeforeQuiet(c: Config, d: Delivery)
    requires !d.capable || !d.reachesDaemon
    ensures NoExecution(BeforeAnswer(d, c.device, c.outOfOrder))
  {
  }

  lemma AfterQuiet(c: Config, d: Delivery)
    ensures NoExecution(AnswerAndRemember(d, c.device, c.outOfOrder))
  {
  }

  lemma NewQuiet(c: Config, d: Delivery)
    requires Expired(d) || !d.capable || !d.reachesDaemon
    ensures NoExecution(NewPlan(d, c.device, c.outOfOrder))
  {
    if Expired(d) {
      ExpiredQuiet(d, c.device);
      QuietJoin([Miss(d.commandId)], ExpiredPlan(d, c.device));
    } else {
      BeforeQuiet(c, d);
      AfterQuiet(c, d);
      QuietJoin(BeforeAnswer(d, c.device, c.outOfOrder), AnswerAndRemember(d, c.device, c.outOfOrder));
      QuietJoin([Miss(d.commandId)], HandlePlan(d, c.device, c.outOfOrder));
    }
  }

  lemma NewShape(c: Config, d: Delivery)
    requires !Expired(d) && d.capable && d.reachesDaemon
    ensures NewPlan(d, c.device, c.outOfOrder)
            == PlanHead(c, d) + [Execute(d.commandId)] + PlanTail(c, d) + [RememberEntry(HandledEntry(d))]
  {
  }

  lemma PlanShape(c: Config, m: Machine, d: Delivery)
    ensures var plan := Plan(m.store, d, c.device, c.outOfOrder);
            if Executes(m, d) then
              plan == PlanHead(c, d) + [Execute(d.commandId)] + PlanTail(c, d) + [RememberEntry(HandledEntry(d))]
            else NoExecution(plan)
  {
    if !Expired(d) && d.capable && d.reachesDaemon {
      NewShape(c, d);
    } else {
      NewQuiet(c, d);
    }
    if Cached(m.store.processed, d.commandId) {
      HitQuiet(m.store.processed[Find(m.store.processed, d.commandId)], d, c.device);
    }
  }

  /** What a step does: it executes nothing, or one uncached command between calm stretches. */
  lemma StepShape(c: Config, m: Machine, s: Step) returns (post: seq<Action>, rest: seq<Action>)
    ensures NoExecution(StepActions(c, m, s)) ||
            ((s.Deliver? || s.DieDuring?) && Executes(m, s.d) && Calm(post) && Ending(rest, s.d) &&
             StepActions(c, m, s) == PlanHead(c, s.d) + [Execute(s.d.commandId)] + (post + rest))
  {
    post, rest := [], [];
    if s.Deliver? || s.DieDuring? {
      PlanShape(c, m, s.d);
      CalmParts(c, s.d);
      if Executes(m, s.d) {
        var head, tail := PlanHead(c, s.d), PlanTail(c, s.d);
        var x, r := [Execute(s.d.commandId)], [RememberEntry(HandledEntry(s.d))];
        if s.Deliver? {
          post, rest := tail, r;
          assert head + x + tail + r == head + x + (tail + r);
        } else {
          post, rest := CutShape(head, x, tail, r, s.upTo, Restart(s.files));
        }
      }
    }
  }

  lemma CutShape(head: seq<Action>, x: seq<Action>, tail: seq<Action>, r: seq<Action>, n: nat, end: Action)
    returns (post: seq<Action>, rest: seq<Action>)
    requires |x| == |r| == 1 && Calm(head) && Calm(tail) && end.Restart?
    ensures Calm(post) && (rest == r + [end] || rest == [end])
    ensures NoExecution(Upto(head + x + tail + r, n) + [end]) ||
            Upto(head + x + tail + r, n) + [end] == head + x + (post + rest)
  {
    var all := head + x + tail + r;
    if n <= |head| {
      post, rest := [], [end];
      assert all[..n] == head[..n];
      forall a | a in head[..n] ensures !a.Execute? { assert CalmAction(a); }
    } else if n < |all| {
      post, rest := tail[..n - |head| - 1], [end];
      assert all[..n] == head + x + tail[..n - |head| - 1];
    } else {
      post, rest := tail, r + [end];
      assert all + [end] == head + x + (tail + (r + [end]));
    }
  }

  /** After its execution, and whatever is left of the step, the command is guarded. */
  lemma Settles(m: Machine, d: Delivery, post: seq<Action>, rest: seq<Action>, disk: nat -> bool)
    requires Sound(m) && d.commandId != "" && !Cached(m.store.processed, d.commandId)
    requires m.history != [] && Calm(post) && Ending(rest, d)
    ensures Guarded(ApplyAll(m, post + rest, disk), |m.history| - 1, d.commandId)
  {
    var m1 := ApplyAll(m, post, disk);
    ApplyConcat(m, post, rest, disk);
    ApplyAllCalm(m, post, disk);
    ApplyAllSound(m, post, disk);
    assert m1.history[|m.history|..] == Added(m, m1);
    EndingSettles(m1, d, rest, Later(disk, |post|), |m.history| - 1);
  }

  lemma EndingSettles(m: Machine, d: Delivery, rest: seq<Action>, disk: nat -> bool, i: nat)
    requires Sound(m) && d.commandId != "" && !Cached(m.store.processed, d.commandId)
    requires i < |m.history| && CalmEvents(m.history[i + 1..]) && Ending(rest, d)
    ensures Guarded(ApplyAll(m, rest, disk), i, d.commandId)
  {
    var e := HandledEntry(d);
    if rest[0].Restart? {
      assert rest == [rest[0]];
      One(m, rest[0], disk);
      KilledFirst(m, rest[0], disk, i, d.commandId);
    } else {
      var m2 := Apply(m, RememberEntry(e), disk(0));
      One(m, RememberEntry(e), disk);
      RememberSettles(m, e, disk(0), i);
      if |rest| == 2 {
        ApplySound(m, RememberEntry(e), disk(0));
        AgentDelivery.Step(m, [RememberEntry(e)], rest[1], disk);
        assert rest == [RememberEntry(e)] + [rest[1]];
        ApplyGuards(m2, rest[1], disk(1), i, d.commandId);
      }
    }
  }

  lemma One(m: Machine, a: Action, disk: nat -> bool)
    ensures ApplyAll(m, [a], disk) == Apply(m, a, disk(0))
  {
  }

  lemma RestartFirst(es: seq<Event>, r: Event, id: string)
    requires CalmEvents(es) && r.Restarted?
    ensures DiedFirst(es + [r], id)
  {
    assert (es + [r])[|es|] == r && (es + [r])[..|es|] == es;
  }

  lemma KilledFirst(m: Machine, a: Action, disk: nat -> bool, i: nat, id: string)
    requires a.Restart? && i < |m.history| && CalmEvents(m.history[i + 1..])
    ensures Guarded(Apply(m, a, disk(0)), i, id)
  {
    var h := Apply(m, a, disk(0)).history;
    RestartFirst(m.history[i + 1..], h[|m.history|], id);
    assert h[i + 1..] == m.history[i + 1..] + [h[|m.history|]];
  }

  lemma RememberSettles(m: Machine, e: ProcessedCommand, saved: bool, i: nat)
    requires ValidCache(m.store.processed) && e.commandId != "" && !Cached(m.store.processed, e.commandId)
    requires i < |m.history|
    ensures Guarded(Apply(m, RememberEntry(e), saved), i, e.commandId)
  {
    RememberLast(m.store.processed, e);
    var m' := Apply(m, RememberEntry(e), saved);
    assert Held(m'.store.processed, Others(m'.history[i + 1..], e.commandId), e.commandId);
  }

  lemma RememberLast(ps: seq<ProcessedCommand>, e: ProcessedCommand)
    requires ValidCache(ps) && e.commandId != "" && !Cached(ps, e.commandId)
    ensures var ps' := Remember(ps, e);
            Find(ps', e.commandId) == |ps'| - 1 && Behind(ps', |ps'| - 1) == {}
  {
    var ps' := Remember(ps, e);
    RememberKeepsCache(ps, e);
    assert ps'[|ps'| - 1] == e;
    FindIs(ps', |ps'| - 1, e.commandId);
  }

  // At most once

  predicate ExecutedAt(h: seq<Event>, i: nat, id: string) { i < |h| && h[i] == Executed(id) }

  lemma AddedAt(m: Machine, m': Machine, k: nat)
    requires m.history <= m'.history && |m.history| <= k < |m'.history|
    ensures m'.history[k] in Added(m, m')
  {
  }

  /** Of the events added in three stretches, only the one in the middle is an execution. */
  lemma OnlyMiddle(m: Machine, m1: Machine, m2: Machine, m3: Machine, k: nat)
    requires m.history <= m1.history <= m2.history <= m3.history && |m2.history| == |m1.history| + 1
    requires Quiet(Added(m, m1)) && Quiet(Added(m2, m3))
    requires |m.history| <= k < |m3.history| && m3.history[k].Executed?
    ensures k == |m1.history| && m3.history[k] == m2.history[k]
  {
  }

  /** An execution recorded by a step is of its own, uncached, delivery, and leaves it guarded. */
  lemma StepExecutes(c: Config, m: Machine, s: Step, k: nat)
    requires Sound(m)
    requires |m.history| <= k < |After(c, m, s).history| && After(c, m, s).history[k].Executed?
    ensures s.Deliver? || s.DieDuring?
    ensures Executes(m, s.d) && After(c, m, s).history[k] == Executed(s.d.commandId)
    ensures k == |ApplyAll(m, PlanHead(c, s.d), s.disk).history|
    ensures s.d.commandId != "" ==> Guarded(After(c, m, s), k, s.d.commandId)
  {
    var post, rest := StepShape(c, m, s);
    var acts := StepActions(c, m, s);
    if NoExecution(acts) {
      ApplyAllQuiet(m, acts, s.disk);
      AddedAt(m, After(c, m, s), k);
    } else {
      CalmParts(c, s.d);
      var head := PlanHead(c, s.d);
      var later := Later(s.disk, |head| + 1);
      ThreeParts(m, head, Execute(s.d.commandId), post + rest, s.disk);
      MiddleExecutes(m, head, s.d, post, rest, s.disk, later, k);
      if s.d.commandId != "" { MiddleSettles(m, head, s.d, post, rest, s.disk, later); }
    }
  }

  lemma ThreeParts(m: Machine, head: seq<Action>, x: Action, rest: seq<Action>, disk: nat -> bool)
    ensures ApplyAll(m, head + [x] + rest, disk)
            == ApplyAll(Apply(ApplyAll(m, head, disk), x, disk(|head|)), rest, Later(disk, |head| + 1))
  {
    ApplyConcat(m, head + [x], rest, disk);
    AgentDelivery.Step(m, head, x, disk);
  }

  lemma AfterExecute(m: Machine, id: string, saved: bool)
    requires Sound(m)
    ensures var m' := Apply(m, Execute(id), saved);
            Sound(m') && |m'.history| == |m.history| + 1 && m'.store.processed == m.store.processed
  {
  }

  lemma CalmHead(m: Machine, head: seq<Action>, disk: nat -> bool)
    requires Sound(m) && Calm(head)
    ensures Sound(ApplyAll(m, head, disk)) && ApplyAll(m, head, disk).store.processed == m.store.processed
  {
    ApplyAllCalm(m, head, disk);
    ApplyAllSound(m, head, disk);
  }

  lemma MiddleSettles(m: Machine, head: seq<Action>, d: Delivery, post: seq<Action>, rest: seq<Action>,
                      disk: nat -> bool, later: nat -> bool)
    requires Sound(m) && Calm(head) && Calm(post) && Ending(rest, d)
    requires d.commandId != "" && !Cached(m.store.processed, d.commandId)
    ensures var m1 := ApplyAll(m, head, disk);
            var m2 := Apply(m1, Execute(d.commandId), disk(|head|));
            Guarded(ApplyAll(m2, post + rest, later), |m1.history|, d.commandId)
  {
    var m1 := ApplyAll(m, head, disk);
    CalmHead(m, head, disk);
    AfterExecute(m1, d.commandId, disk(|head|));
    Settles(Apply(m1, Execute(d.commandId), disk(|head|)), d, post, rest, later);
  }

  lemma MiddleExecutes(m: Machine, head: seq<Action>, d: Delivery, post: seq<Action>, rest: seq<Action>,
                       disk: nat -> bool, later: nat -> bool, k: nat)
    requires Calm(head) && Calm(post) && Ending(rest, d)
    requires var m2 := Apply(ApplyAll(m, head, disk), Execute(d.commandId), disk(|head|));
             var m3 := ApplyAll(m2, post + rest, later);
             |m.history| <= k < |m3.history| && m3.history[k].Executed?
    ensures var m2 := Apply(ApplyAll(m, head, disk), Execute(d.commandId), disk(|head|));
            var m3 := ApplyAll(m2, post + rest, later);
            k == |ApplyAll(m, head, disk).history| && m3.history[k] == Executed(d.commandId)
  {
    var m1 := ApplyAll(m, head, disk);
    var m2 := Apply(m1, Execute(d.commandId), disk(|head|));
    CalmQuiet(head);
    ApplyAllQuiet(m, head, disk);
    RestQuiet(post, rest, d);
    ApplyAllQuiet(m2, post + rest, later);
    OnlyMiddle(m, m1, m2, ApplyAll(m2, post + rest, later), k);
  }

  lemma CalmQuiet(acts: seq<Action>)
    requires Calm(acts)
    ensures NoExecution(acts)
  {
  }

  lemma RestQuiet(post: seq<Action>, rest: seq<Action>, d: Delivery)
    requires Calm(post) && Ending(rest, d)
    ensures NoExecution(post + rest)
  {
  }

  lemma {:induction false} RunSound(c: Config, m: Machine, steps: seq<Step>)
    requires Sound(m)
    ensures Sound(Run(c, m, steps)) && m.history <= Run(c, m, steps).history
  {
    if steps != [] {
      var n := |steps| - 1;
      RunSound(c, m, steps[..n]);
      var p := Run(c, m, steps[..n]);
      ApplyAllSound(p, StepActions(c, p, steps[n]), steps[n].disk);
    }
  }

  /** In every run each execution stays guarded from then on. */
  lemma {:induction false} RunGuards(c: Config, m: Machine, steps: seq<Step>, i: nat, id: string)
    requires Initial(m) && id != "" && ExecutedAt(Run(c, m, steps).history, i, id)
    ensures Guarded(Run(c, m, steps), i, id)
  {
    if steps != [] {
      var n := |steps| - 1;
      var p, s := Run(c, m, steps[..n]), steps[n];
      RunSound(c, m, steps[..n]);
      ApplyAllSound(p, StepActions(c, p, s), s.disk);
      if i < |p.history| {
        RunGuards(c, m, steps[..n], i, id);
        ApplyAllGuards(p, StepActions(c, p, s), s.disk, i, id);
      } else {
        StepExecutes(c, p, s, i);
      }
    }
  }

  lemma SliceLater(h: seq<Event>, h': seq<Event>, i: nat, j: nat, id: string)
    requires h <= h' && i < |h| <= j <= |h'| && Excused(h[i + 1..], id)
    ensures Excused(h'[i + 1..j], id)
  {
    ExcusedLater(h[i + 1..], h'[|h|..j], id);
    assert h'[i + 1..j] == h[i + 1..] + h'[|h|..j];
  }

  /** A step that executes a guarded command again is excused. */
  lemma SecondExecution(c: Config, p: Machine, s: Step, i: nat, j: nat, id: string)
    requires Sound(p) && Guarded(p, i, id)
    requires |p.history| <= j && ExecutedAt(After(c, p, s).history, j, id)
    ensures Excused(After(c, p, s).history[i + 1..j], id)
  {
    ApplyAllSound(p, StepActions(c, p, s), s.disk);
    StepExecutes(c, p, s, j);
    SliceLater(p.history, After(c, p, s).history, i, j, id);
  }

  /** No step executes twice. */
  lemma OneExecution(c: Config, p: Machine, s: Step, i: nat, j: nat, id: string)
    requires Sound(p) && |p.history| <= i
    requires ExecutedAt(After(c, p, s).history, i, id) && ExecutedAt(After(c, p, s).history, j, id)
    ensures j <= i
  {
    if i <= j {
      StepExecutes(c, p, s, i);
      StepExecutes(c, p, s, j);
    }
  }

  lemma LastStep(c: Config, m: Machine, steps: seq<Step>)
    requires Sound(m) && steps != []
    ensures var p := Run(c, m, steps[..|steps| - 1]);
            Sound(p) && Run(c, m, steps) == After(c, p, steps[|steps| - 1]) && p.history <= Run(c, m, steps).history
  {
    var n := |steps| - 1;
    RunSound(c, m, steps[..n]);
    var p := Run(c, m, steps[..n]);
    ApplyAllSound(p, StepActions(c, p, steps[n]), steps[n].disk);
  }

  /**
   Bounded at-most-once.  Between two executions of one command, in any run and
   with any writes failing: the process died before the first was remembered,
   or a restart lost cached commands (a write had failed, or the file could not
   be read), or 256 other commands
   were remembered.
   */
  lemma {:induction false} AtMostOnce(c: Config, m: Machine, steps: seq<Step>, i: nat, j: nat, id: string)
    requires Initial(m) && id != "" && i < j
    requires ExecutedAt(Run(c, m, steps).history, i, id) && ExecutedAt(Run(c, m, steps).history, j, id)
    ensures Excused(Run(c, m, steps).history[i + 1..j], id)
  {
    if steps != [] {
      var n := |steps| - 1;
      var p, s := Run(c, m, steps[..n]), steps[n];
      LastStep(c, m, steps);
      if j < |p.history| {
        AtMostOnce(c, m, steps[..n], i, j, id);
        assert Run(c, m, steps).history[i + 1..j] == p.history[i + 1..j];
      } else if i < |p.history| {
        RunGuards(c, m, steps[..n], i, id);
        SecondExecution(c, p, s, i, j, id);
      } else {
        OneExecution(c, p, s, i, j, id);
      }
    }
  }

  // Numbers and deliveries around an execution

  lemma HeadTakesNumber(c: Config, m: Machine, d: Delivery, disk: nat -> bool)
    ensures var h := ApplyAll(m, PlanHead(c, d), disk).history;
            h != [] && h[|h| - 1].Issued?
  {
    var head := PlanHead(c, d);
    var n := |head| - 1;
    assert head[n] == TakeSequence;
  }

  /** Every execution in a run comes right after the number its request carries. */
  lemma {:induction false} NumberBeforeExecution(c: Config, m: Machine, steps: seq<Step>, k: nat)
    requires Initial(m) && k < |Run(c, m, steps).history| && Run(c, m, steps).history[k].Executed?
    ensures k > 0 && Run(c, m, steps).history[k - 1].Issued?
  {
    if steps != [] {
      var n := |steps| - 1;
      var p, s := Run(c, m, steps[..n]), steps[n];
      LastStep(c, m, steps);
      if k < |p.history| {
        NumberBeforeExecution(c, m, steps[..n], k);
      } else {
        StepNumbered(c, p, s, k);
      }
    }
  }

  lemma StepNumbered(c: Config, m: Machine, s: Step, k: nat)
    requires Sound(m)
    requires |m.history| <= k < |After(c, m, s).history| && After(c, m, s).history[k].Executed?
    ensures k > 0 && After(c, m, s).history[k - 1].Issued?
  {
    var acts := StepActions(c, m, s);
    if NoExecution(acts) {
      ApplyAllQuiet(m, acts, s.disk);
      AddedAt(m, After(c, m, s), k);
    } else {
      StepExecutes(c, m, s, k);
      HeadTakesNumber(c, m, s.d, s.disk);
      HeadHistory(c, m, s);
    }
  }

  /** The history of a step that executes begins with that of its head. */
  lemma HeadHistory(c: Config, m: Machine, s: Step)
    requires Sound(m) && (s.Deliver? || s.DieDuring?) && !NoExecution(StepActions(c, m, s))
    ensures ApplyAll(m, PlanHead(c, s.d), s.disk).history <= After(c, m, s).history
  {
    var post, rest := StepShape(c, m, s);
    Assoc(PlanHead(c, s.d), [Execute(s.d.commandId)], post + rest);
    PrefixGrows(m, PlanHead(c, s.d), [Execute(s.d.commandId)] + (post + rest), s.disk);
  }

  lemma PrefixGrows(m: Machine, a: seq<Action>, b: seq<Action>, disk: nat -> bool)
    requires Sound(m)
    ensures ApplyAll(m, a, disk).history <= ApplyAll(m, a + b, disk).history
  {
    ApplyConcat(m, a, b, disk);
    ApplyAllSound(m, a, disk);
    ApplyAllSound(ApplyAll(m, a, disk), b, Later(disk, |a|));
  }
}
