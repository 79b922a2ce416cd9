/**
 The agent together with its outbox: deliveries, crashes and restarts on one
 side, flushes and reports on the other.  Seen from the queue it is a run of the
 outbox, seen from the store a run of the agent, so what is proved of each holds
 of the messages that actually go out.
 */
module AgentTraffic {
  import opened Json
  import opened CanonicalText
  import opened AgentStore
  import opened AgentOutbox
  import opened AgentDelivery
  import opened AgentRuns
  import opened AgentAnswers
  import Numbers = AgentNumbers
  import Queue = OutboxRuns

  /** The agent's own state, and its queue with the history that goes with it. */
  datatype Net = Net(m: Machine, box: Queue.Box)

  /** `disk` decides the writes of the number that every attempt to send takes. */
  datatype Traffic =
    | Act(step: Step)
    | Report(item: OutboxItem, saved: bool)
    | Measure(item: OutboxItem, saved: bool)
    | Sent(popped: bool, saved: bool, disk: nat -> bool)
    | NotSent(disk: nat -> bool)
    | Dropped(saved: bool)

  // Two views of one step

  function MoveOf(a: Action, saved: bool): seq<Queue.Move> {
    match a
    case Enqueue(item) => [Queue.Enqueue(item, saved)]
    case Restart(files) => [Queue.Reload(files.outbox)]
    case _ => []
  }

  /** What a list of the agent's actions does to the queue. */
  function MovesOf(acts: seq<Action>, disk: nat -> bool): seq<Queue.Move> {
    if acts == [] then []
    else
      var n := |acts| - 1;
      MovesOf(acts[..n], disk) + MoveOf(acts[n], disk(n))
  }

  function TrafficMoves(c: Config, m: Machine, t: Traffic): seq<Queue.Move> {
    match t
    case Act(s) => MovesOf(StepActions(c, m, s), s.disk)
    case Report(item, saved) => if item.kind == UPDATE_STATUS then [Queue.Enqueue(item, saved)] else []
    case Measure(item, saved) => if item.kind == TELEMETRY then [Queue.EnqueueTelemetry(item, saved)] else []
    case Sent(popped, saved, _) => [if popped then Queue.SendAndPop(saved) else Queue.Send]
    case NotSent(_) => []
    case Dropped(saved) => [Queue.Drop(saved)]
  }

  function AgentSteps(t: Traffic): seq<Step> {
    match t
    case Act(s) => [s]
    case Sent(_, _, disk) => [Tick(disk)]
    case NotSent(disk) => [Tick(disk)]
    case _ => []
  }

  /** An agent step acts on memory and files; everything else on the queue, after taking a number to send with. */
  function Then(c: Config, net: Net, t: Traffic): Net {
    var box := Queue.Run(net.box, TrafficMoves(c, net.m, t));
    var m := Run(c, net.m, AgentSteps(t));
    Net(if t.Act? then m else m.(pending := box.pending, outboxFile := box.file), box)
  }

  function Go(c: Config, net: Net, ts: seq<Traffic>): Net {
    if ts == [] then net else Then(c, Go(c, net, ts[..|ts| - 1]), ts[|ts| - 1])
  }

  function AllMoves(c: Config, net: Net, ts: seq<Traffic>): seq<Queue.Move> {
    if ts == [] then []
    else
      var n := |ts| - 1;
      AllMoves(c, net, ts[..n]) + TrafficMoves(c, Go(c, net, ts[..n]).m, ts[n])
  }

  function AllSteps(ts: seq<Traffic>): seq<Step> {
    if ts == [] then [] else AllSteps(ts[..|ts| - 1]) + AgentSteps(ts[|ts| - 1])
  }

  /** Nothing queued or sent yet. */
  predicate Fresh(net: Net) {
    Initial(net.m) && net.m.pending == [] && net.m.outboxFile == [] && net.box == Queue.NOTHING
  }

  // Seen from the queue

  lemma {:induction false} QueueConcat(b: Queue.Box, x: seq<Queue.Move>, y: seq<Queue.Move>)
    ensures Queue.Run(b, x + y) == Queue.Run(Queue.Run(b, x), y)
    decreases |y|
  {
    if y == [] {
      assert x + y == x;
    } else {
      var n := |y| - 1;
      QueueConcat(b, x, y[..n]);
      assert (x + y)[..|x + y| - 1] == x + y[..n];
    }
  }

  /** The queue is one run of the outbox. */
  lemma {:induction false} BoxIsRun(c: Config, net: Net, ts: seq<Traffic>)
    ensures Go(c, net, ts).box == Queue.Run(net.box, AllMoves(c, net, ts))
  {
    if ts != [] {
      var n := |ts| - 1;
      BoxIsRun(c, net, ts[..n]);
      QueueConcat(net.box, AllMoves(c, net, ts[..n]), TrafficMoves(c, Go(c, net, ts[..n]).m, ts[n]));
    }
  }

  // Seen from the store

  function Bare(m: Machine): Machine { m.(pending := [], outboxFile := []) }

  lemma ApplyBare(m: Machine, m': Machine, a: Action, saved: bool)
    requires Bare(m) == Bare(m')
    ensures Bare(Apply(m, a, saved)) == Bare(Apply(m', a, saved))
  {
  }

  lemma {:induction false} ApplyAllBare(m: Machine, m': Machine, acts: seq<Action>, disk: nat -> bool)
    requires Bare(m) == Bare(m')
    ensures Bare(ApplyAll(m, acts, disk)) == Bare(ApplyAll(m', acts, disk))
  {
    if acts != [] {
      var n := |acts| - 1;
      ApplyAllBare(m, m', acts[..n], disk);
      ApplyBare(ApplyAll(m, acts[..n], disk), ApplyAll(m', acts[..n], disk), acts[n], disk(n));
    }
  }

  lemma {:induction false} RunBare(c: Config, m: Machine, m': Machine, steps: seq<Step>)
    requires Bare(m) == Bare(m')
    ensures Bare(Run(c, m, steps)) == Bare(Run(c, m', steps))
  {
    if steps != [] {
      var n := |steps| - 1;
      RunBare(c, m, m', steps[..n]);
      var p, p' := Run(c, m, steps[..n]), Run(c, m', steps[..n]);
      assert p.store == Bare(p).store == Bare(p').store == p'.store;
      ApplyAllBare(p, p', StepActions(c, p, steps[n]), steps[n].disk);
    }
  }

  lemma {:induction false} RunConcat(c: Config, m: Machine, a: seq<Step>, b: seq<Step>)
    ensures Run(c, m, a + b) == Run(c, Run(c, m, a), b)
    decreases |b|
  {
    if b == [] {
      assert a + b == a;
    } else {
      var n := |b| - 1;
      RunConcat(c, m, a, b[..n]);
      assert (a + b)[..|a + b| - 1] == a + b[..n];
    }
  }

  /**
   But for the queue, the agent is one run of its deliveries and restarts;
   every attempt to send only takes a number.
   */
  lemma {:induction false} AgentIsRun(c: Config, net: Net, ts: seq<Traffic>)
    ensures Bare(Go(c, net, ts).m) == Bare(Run(c, net.m, AllSteps(ts)))
  {
    if ts != [] {
      var n := |ts| - 1;
      var p := Go(c, net, ts[..n]);
      AgentIsRun(c, net, ts[..n]);
      RunBare(c, p.m, Run(c, net.m, AllSteps(ts[..n])), AgentSteps(ts[n]));
      RunConcat(c, net.m, AllSteps(ts[..n]), AgentSteps(ts[n]));
    }
  }

  // Message ids

  /** The ids of the messages a list of moves enqueues. */
  function Ids(moves: seq<Queue.Move>): seq<string> {
    if moves == [] then []
    else
      var n := |moves| - 1;
      Ids(moves[..n]) + if moves[n].Enqueue? || moves[n].EnqueueTelemetry? then [moves[n].item.messageId] else []
  }

  /** No id is generated twice. */
  predicate Unique(ids: seq<string>) { forall i, j :: 0 <= i < j < |ids| ==> ids[i] != ids[j] }

  lemma {:induction false} IdsConcat(x: seq<Queue.Move>, y: seq<Queue.Move>)
    ensures Ids(x + y) == Ids(x) + Ids(y)
    decreases |y|
  {
    if y == [] {
      assert x + y == x;
    } else {
      var n := |y| - 1;
      IdsConcat(x, y[..n]);
      assert (x + y)[..|x + y| - 1] == x + y[..n];
    }
  }

  lemma {:induction false} IssuedIds(moves: seq<Queue.Move>, x: OutboxItem)
    requires x in Queue.Run(Queue.NOTHING, moves).issued
    ensures x.messageId in Ids(moves)
  {
    if moves != [] {
      var n := |moves| - 1;
      if x in Queue.Run(Queue.NOTHING, moves[..n]).issued { IssuedIds(moves[..n], x); }
    }
  }

  /** With unique ids an item is new to the queue when it is enqueued. */
  lemma NewToQueue(before: seq<Queue.Move>, move: Queue.Move, after: seq<Queue.Move>)
    requires (move.Enqueue? || move.EnqueueTelemetry?) && Unique(Ids(before + [move] + after))
    ensures Queue.Fresh(Queue.Run(Queue.NOTHING, before).issued, move.item)
  {
    var issued := Queue.Run(Queue.NOTHING, before).issued;
    IdsConcat(before + [move], after);
    IdsConcat(before, [move]);
    assert [move][..0] == [] && Ids([move]) == [move.item.messageId];
    var ids := Ids(before);
    assert Ids(before + [move] + after)[|ids|] == move.item.messageId;
    forall i | 0 <= i < |issued| ensures issued[i].messageId != move.item.messageId {
      IssuedIds(before, issued[i]);
      var k :| 0 <= k < |ids| && ids[k] == issued[i].messageId;
      assert Ids(before + [move] + after)[k] == ids[k];
    }
  }

  // Agent and queue agree

  predicate Agree(m: Machine, b: Queue.Box) { m.pending == b.pending && m.outboxFile == b.file }

  lemma ApplyAgrees(m: Machine, a: Action, saved: bool, b: Queue.Box)
    requires Agree(m, b) && (a.Enqueue? ==> a.item.kind != TELEMETRY && Queue.Fresh(b.issued, a.item))
    ensures Agree(Apply(m, a, saved), Queue.Run(b, MoveOf(a, saved)))
  {
    var moves := MoveOf(a, saved);
    assert moves != [] ==> moves[..0] == [];
  }

  predicate NoTelemetry(acts: seq<Action>) { forall a :: a in acts ==> a.Enqueue? ==> a.item.kind != TELEMETRY }

  lemma {:induction false} ApplyAllAgrees(m: Machine, acts: seq<Action>, disk: nat -> bool,
                                          before: seq<Queue.Move>, after: seq<Queue.Move>)
    requires Agree(m, Queue.Run(Queue.NOTHING, before)) && NoTelemetry(acts)
    requires Unique(Ids(before + MovesOf(acts, disk) + after))
    ensures Agree(ApplyAll(m, acts, disk), Queue.Run(Queue.NOTHING, before + MovesOf(acts, disk)))
    decreases |acts|
  {
    if acts == [] {
      assert before + [] == before;
    } else {
      var n := |acts| - 1;
      var init, last := MovesOf(acts[..n], disk), MoveOf(acts[n], disk(n));
      Split(before, init, last, after);
      ApplyAllAgrees(m, acts[..n], disk, before, last + after);
      QueueConcat(Queue.NOTHING, before + init, last);
      if acts[n].Enqueue? {
        assert acts[n] in acts;
        NewToQueue(before + init, last[0], after);
      }
      ApplyAgrees(ApplyAll(m, acts[..n], disk), acts[n], disk(n), Queue.Run(Queue.NOTHING, before + init));
    }
  }

  lemma Split(a: seq<Queue.Move>, b: seq<Queue.Move>, c: seq<Queue.Move>, d: seq<Queue.Move>)
    ensures a + (b + c) + d == a + b + (c + d) == a + b + c + d && a + (b + c) == a + b + c
  {
  }

  lemma PlanNoTelemetry(c: Config, store: Image, d: Delivery)
    ensures NoTelemetry(Plan(store, d, c.device, c.outOfOrder))
  {
    PlanIsBody(c, store, d);
    BodyKinds(c, store, d);
  }

  lemma BodyKinds(c: Config, store: Image, d: Delivery)
    ensures NoTelemetry(Body(c, store, d))
  {
  }

  lemma StepNoTelemetry(c: Config, m: Machine, s: Step)
    ensures NoTelemetry(StepActions(c, m, s))
  {
    if s.Deliver? || s.DieDuring? { PlanNoTelemetry(c, m.store, s.d); }
  }

  lemma UniquePrefix(a: seq<Queue.Move>, b: seq<Queue.Move>)
    requires Unique(Ids(a + b))
    ensures Unique(Ids(a))
  {
    IdsConcat(a, b);
    forall i, j | 0 <= i < j < |Ids(a)| ensures Ids(a)[i] != Ids(a)[j] {
      assert Ids(a + b)[i] == Ids(a)[i] && Ids(a + b)[j] == Ids(a)[j];
    }
  }

  lemma RunOne(c: Config, m: Machine, s: Step)
    ensures Run(c, m, [s]) == After(c, m, s)
  {
    assert [s][..0] == [];
  }

  /** With unique ids the agent's queue, in memory and on disk, is the outbox's. */
  lemma {:induction false} GoAgrees(c: Config, net: Net, ts: seq<Traffic>)
    requires Fresh(net) && Unique(Ids(AllMoves(c, net, ts)))
    ensures Agree(Go(c, net, ts).m, Go(c, net, ts).box)
  {
    if ts != [] {
      var n := |ts| - 1;
      var p, before := Go(c, net, ts[..n]), AllMoves(c, net, ts[..n]);
      UniquePrefix(before, TrafficMoves(c, p.m, ts[n]));
      GoAgrees(c, net, ts[..n]);
      BoxIsRun(c, net, ts[..n]);
      BoxIsRun(c, net, ts);
      if ts[n].Act? {
        var s := ts[n].step;
        RunOne(c, p.m, s);
        StepNoTelemetry(c, p.m, s);
        assert before + TrafficMoves(c, p.m, ts[n]) + [] == before + TrafficMoves(c, p.m, ts[n]);
        ApplyAllAgrees(p.m, StepActions(c, p.m, s), s.disk, before, []);
      }
    }
  }

  // What goes out was answered

  lemma {:induction false} IssuedFrom(b: Queue.Box, moves: seq<Queue.Move>, x: OutboxItem) returns (saved: bool)
    requires x in Queue.Run(b, moves).issued && x !in b.issued
    ensures Queue.Enqueue(x, saved) in moves || Queue.EnqueueTelemetry(x, saved) in moves
    decreases |moves|
  {
    var n := |moves| - 1;
    if x in Queue.Run(b, moves[..n]).issued {
      saved := IssuedFrom(b, moves[..n], x);
    } else {
      saved := moves[n].saved;
    }
  }

  lemma {:induction false} MoveFrom(acts: seq<Action>, disk: nat -> bool, move: Queue.Move)
    requires move in MovesOf(acts, disk)
    ensures (move.Enqueue? && Enqueue(move.item) in acts) || move.Reload?
    decreases |acts|
  {
    var n := |acts| - 1;
    if move in MovesOf(acts[..n], disk) { MoveFrom(acts[..n], disk, move); }
  }

  lemma {:induction false} EnqueueRecorded(m: Machine, acts: seq<Action>, disk: nat -> bool, item: OutboxItem)
    requires Enqueue(item) in acts
    ensures EnqueueEvent(item) in ApplyAll(m, acts, disk).history
    decreases |acts|
  {
    var n := |acts| - 1;
    assert acts == acts[..n] + [acts[n]];
    ApplyHistory(ApplyAll(m, acts[..n], disk), acts[n], disk(n));
    if acts[n] != Enqueue(item) { EnqueueRecorded(m, acts[..n], disk, item); }
  }

  lemma ThenHistory(c: Config, net: Net, t: Traffic)
    ensures net.m.history <= Then(c, net, t).m.history
  {
    var steps := AgentSteps(t);
    if steps != [] {
      RunOne(c, net.m, steps[0]);
      HistoryGrows(net.m, StepActions(c, net.m, steps[0]), steps[0].disk);
    }
  }

  /** Every result that was ever queued was answered in the agent's history. */
  lemma {:induction false} IssuedAnswered(c: Config, net: Net, ts: seq<Traffic>, x: OutboxItem)
    requires Fresh(net) && x in Go(c, net, ts).box.issued && x.kind == RESULT
    ensures Answered(x.commandId, x.result) in Go(c, net, ts).m.history
  {
    if ts != [] {
      var n := |ts| - 1;
      var p := Go(c, net, ts[..n]);
      ThenHistory(c, p, ts[n]);
      if x in p.box.issued {
        IssuedAnswered(c, net, ts[..n], x);
      } else {
        NewlyIssued(c, p, ts[n], x);
      }
    }
  }

  lemma NewlyIssued(c: Config, p: Net, t: Traffic, x: OutboxItem)
    requires x in Then(c, p, t).box.issued && x !in p.box.issued && x.kind == RESULT
    ensures Answered(x.commandId, x.result) in Then(c, p, t).m.history
  {
    var saved := IssuedFrom(p.box, TrafficMoves(c, p.m, t), x);
    if t.Act? {
      var acts := StepActions(c, p.m, t.step);
      if Queue.Enqueue(x, saved) in MovesOf(acts, t.step.disk) {
        MoveFrom(acts, t.step.disk, Queue.Enqueue(x, saved));
      } else {
        MoveFrom(acts, t.step.disk, Queue.EnqueueTelemetry(x, saved));
      }
      RunOne(c, p.m, t.step);
      EnqueueRecorded(p.m, acts, t.step.disk, x);
    }
  }

  function Between(h: seq<Event>, p: nat, q: nat): seq<Event>
    requires p < |h| && q < |h|
  {
    if p < q then h[p + 1..q] else if q < p then h[q + 1..p] else []
  }

  /** The answer at `p` is the one the message carries. */
  predicate AnsweredAt(h: seq<Event>, p: nat, x: OutboxItem) { p < |h| && h[p] == Answered(x.commandId, x.result) }

  lemma {:induction false} SentAnswered(c: Config, net: Net, ts: seq<Traffic>, i: nat) returns (p: nat)
    requires Fresh(net) && i < |Go(c, net, ts).box.sent| && Go(c, net, ts).box.sent[i].kind == RESULT
    ensures AnsweredAt(Go(c, net, ts).m.history, p, Go(c, net, ts).box.sent[i])
  {
    var x, h := Go(c, net, ts).box.sent[i], Go(c, net, ts).m.history;
    BoxIsRun(c, net, ts);
    Queue.OnlyRepeats(AllMoves(c, net, ts), i, i);
    IssuedAnswered(c, net, ts, x);
    p :| p < |h| && h[p] == Answered(x.commandId, x.result);
  }

  /**
   Results that go out agree.  Every result sent was answered in the agent's
   history, and two sent for one command are equal unless, between any answers
   they carry, the command was looked up in vain or a restart lost cached commands.
   */
  lemma SentAnswersAgree(c: Config, net: Net, ts: seq<Traffic>, i: nat, j: nat)
    requires Fresh(net) && i < |Go(c, net, ts).box.sent| && j < |Go(c, net, ts).box.sent|
    requires Go(c, net, ts).box.sent[i].kind == RESULT && Go(c, net, ts).box.sent[j].kind == RESULT
    requires Go(c, net, ts).box.sent[i].commandId == Go(c, net, ts).box.sent[j].commandId != ""
    ensures exists p: nat :: AnsweredAt(Go(c, net, ts).m.history, p, Go(c, net, ts).box.sent[i])
    ensures var x, y, h := Go(c, net, ts).box.sent[i], Go(c, net, ts).box.sent[j], Go(c, net, ts).m.history;
            forall p: nat, q: nat :: AnsweredAt(h, p, x) && AnsweredAt(h, q, y) ==>
              x.result == y.result || Forgotten(Between(h, p, q), x.commandId)
  {
    var x, y, h := Go(c, net, ts).box.sent[i], Go(c, net, ts).box.sent[j], Go(c, net, ts).m.history;
    var at := SentAnswered(c, net, ts, i);
    AgentIsRun(c, net, ts);
    assert h == Bare(Go(c, net, ts).m).history == Run(c, net.m, AllSteps(ts)).history;
    forall p: nat, q: nat | AnsweredAt(h, p, x) && AnsweredAt(h, q, y)
      ensures x.result == y.result || Forgotten(Between(h, p, q), x.commandId)
    {
      if p < q && !Forgotten(h[p + 1..q], x.commandId) { SameAnswer(c, net.m, AllSteps(ts), p, q); }
      if q < p && !Forgotten(h[q + 1..p], x.commandId) { SameAnswer(c, net.m, AllSteps(ts), q, p); }
    }
  }

  // What was answered goes out

  lemma {:induction false} QueuedHas(acts: seq<Action>, item: OutboxItem)
    requires item in Queued(acts)
    ensures Enqueue(item) in acts
  {
    if acts[0] != Enqueue(item) { QueuedHas(acts[1..], item); }
  }

  lemma {:induction false} EnqueueMoves(acts: seq<Action>, disk: nat -> bool, item: OutboxItem)
    requires Enqueue(item) in acts && forall k: nat :: disk(k)
    ensures Queue.Enqueue(item, true) in MovesOf(acts, disk)
    decreases |acts|
  {
    var n := |acts| - 1;
    assert acts == acts[..n] + [acts[n]];
    if acts[n] != Enqueue(item) { EnqueueMoves(acts[..n], disk, item); }
  }

  /** A restart in this traffic can read the outbox file. */
  predicate ReadsOutbox(t: Traffic) { t.Act? && (t.step.DieDuring? || t.step.Reboot?) ==> t.step.files.outbox }

  predicate AllRead(ts: seq<Traffic>, t: nat) { forall k :: t <= k < |ts| ==> ReadsOutbox(ts[k]) }

  predicate ReadsBox(acts: seq<Action>) { forall a :: a in acts ==> a.Restart? ==> a.files.outbox }

  predicate Lossless(moves: seq<Queue.Move>) { Queue.Reload(false) !in moves }

  lemma {:induction false} MovesLossless(acts: seq<Action>, disk: nat -> bool)
    requires ReadsBox(acts)
    ensures Lossless(MovesOf(acts, disk))
    decreases |acts|
  {
    if acts != [] {
      var n := |acts| - 1;
      assert acts == acts[..n] + [acts[n]];
      MovesLossless(acts[..n], disk);
    }
  }

  lemma StepReadsBox(c: Config, m: Machine, s: Step)
    requires ReadsOutbox(Act(s))
    ensures ReadsBox(StepActions(c, m, s))
  {
    if s.Deliver? || s.DieDuring? { Numbers.PlanReads(c, m.store, s.d); }
  }

  lemma NoLoss(c: Config, m: Machine, t: Traffic)
    requires ReadsOutbox(t)
    ensures Lossless(TrafficMoves(c, m, t))
  {
    if t.Act? {
      StepReadsBox(c, m, t.step);
      MovesLossless(StepActions(c, m, t.step), t.step.disk);
    }
  }

  lemma LosslessJoin(a: seq<Queue.Move>, b: seq<Queue.Move>, c: seq<Queue.Move>)
    requires Lossless(b) && Lossless(c)
    ensures Lossless(b + c) && a + b + c == a + (b + c)
  {
  }

  lemma AllMovesLast(c: Config, net: Net, ts: seq<Traffic>, n: nat)
    requires n < |ts| && ReadsOutbox(ts[n])
    ensures var last := TrafficMoves(c, Go(c, net, ts[..n]).m, ts[n]);
            AllMoves(c, net, ts[..n + 1]) == AllMoves(c, net, ts[..n]) + last && Lossless(last)
  {
    assert ts[..n + 1][..n] == ts[..n] && ts[..n + 1][n] == ts[n];
    NoLoss(c, Go(c, net, ts[..n]).m, ts[n]);
  }

  /** The moves up to `n` are those up to `t` and some that lose nothing. */
  lemma {:induction false} MovesAfter(c: Config, net: Net, ts: seq<Traffic>, t: nat, n: nat)
    returns (later: seq<Queue.Move>)
    requires t <= n <= |ts| && AllRead(ts, t)
    ensures AllMoves(c, net, ts[..n]) == AllMoves(c, net, ts[..t]) + later && Lossless(later)
    decreases n
  {
    if t == n {
      later := [];
    } else {
      var rest := MovesAfter(c, net, ts, t, n - 1);
      var last := TrafficMoves(c, Go(c, net, ts[..n - 1]).m, ts[n - 1]);
      AllMovesLast(c, net, ts, n - 1);
      LosslessJoin(AllMoves(c, net, ts[..t]), rest, last);
      later := rest + last;
    }
  }

  lemma SplitAtMove(moves: seq<Queue.Move>, move: Queue.Move) returns (k: nat)
    requires move in moves
    ensures k < |moves| && moves[k] == move && moves == moves[..k] + [move] + moves[k + 1..]
  {
    k :| k < |moves| && moves[k] == move;
  }

  /** An admitted delivery whose writes succeed enqueues its result, saved. */
  lemma DeliveryEnqueues(c: Config, m: Machine, d: Delivery, disk: nat -> bool)
    requires Admitted(m.store, d) && forall k: nat :: disk(k)
    ensures Queue.Enqueue(ResultOf(c, m.store, d), true) in TrafficMoves(c, m, Act(Deliver(d, disk)))
    ensures ResultOf(c, m.store, d).kind == RESULT
  {
    var x, plan := ResultOf(c, m.store, d), Plan(m.store, d, c.device, c.outOfOrder);
    OneResult(c, m.store, d);
    QueuedHas(plan, x);
    EnqueueMoves(plan, disk, x);
  }

  /**
   Every answer gets out.  If a delivery is admitted and its writes succeed, its
   result is pending or was sent at any later point, as long as restarts can
   read the outbox file.
   */
  lemma ResultKept(c: Config, net: Net, ts: seq<Traffic>, t: nat, d: Delivery, disk: nat -> bool)
    requires Fresh(net) && Unique(Ids(AllMoves(c, net, ts))) && AllRead(ts, t)
    requires t < |ts| && ts[t] == Act(Deliver(d, disk)) && (forall k: nat :: disk(k))
    requires Admitted(Go(c, net, ts[..t]).m.store, d)
    ensures var x := ResultOf(c, Go(c, net, ts[..t]).m.store, d);
            x in Go(c, net, ts).m.pending || x in Go(c, net, ts).box.sent
  {
    var m := Go(c, net, ts[..t]).m;
    DeliveryEnqueues(c, m, d, disk);
    AllMovesLast(c, net, ts, t);
    var later := MovesAfter(c, net, ts, t + 1, |ts|);
    assert ts[..|ts|] == ts;
    KeptMove(AllMoves(c, net, ts[..t]), TrafficMoves(c, m, ts[t]), later, ResultOf(c, m.store, d));
    BoxIsRun(c, net, ts);
    GoAgrees(c, net, ts);
  }

  /**
   Every status report gets out.  A report saved to the outbox is pending or was
   sent at any later point, as long as restarts can read the outbox file.
   */
  lemma ReportKept(c: Config, net: Net, ts: seq<Traffic>, t: nat, at: Stamp, ms: seq<Member<Number>>)
    requires Fresh(net) && Unique(Ids(AllMoves(c, net, ts))) && AllRead(ts, t)
    requires t < |ts| && ts[t] == Report(BodyItem(UPDATE_STATUS, at, c.device, Obj(ms)), true)
    ensures var x := BodyItem(UPDATE_STATUS, at, c.device, Obj(ms));
            x in Go(c, net, ts).m.pending || x in Go(c, net, ts).box.sent
  {
    var x, m := BodyItem(UPDATE_STATUS, at, c.device, Obj(ms)), Go(c, net, ts[..t]).m;
    AllMovesLast(c, net, ts, t);
    var later := MovesAfter(c, net, ts, t + 1, |ts|);
    assert ts[..|ts|] == ts;
    KeptMove(AllMoves(c, net, ts[..t]), TrafficMoves(c, m, ts[t]), later, x);
    BoxIsRun(c, net, ts);
    GoAgrees(c, net, ts);
  }

  lemma KeptMove(before: seq<Queue.Move>, own: seq<Queue.Move>, later: seq<Queue.Move>, x: OutboxItem)
    requires Queue.Enqueue(x, true) in own && Queue.Owed(x) && Unique(Ids(before + own + later))
    requires Lossless(own) && Lossless(later)
    ensures var b := Queue.Run(Queue.NOTHING, before + own + later); x in b.pending || x in b.sent
  {
    var move, moves := Queue.Enqueue(x, true), before + own + later;
    var k := SplitAtMove(own, move);
    var head, tail := before + own[..k], own[k + 1..] + later;
    assert moves == head + [move] + tail;
    NewToQueue(head, move, tail);
    assert moves[..|head|] == head && moves[|head|] == move && moves[|head| + 1..] == tail;
    Queue.Conservation(moves, |head|, x, true);
  }
}
