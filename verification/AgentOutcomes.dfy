/**
 What a delivery comes to, seen from outside: when a command is executed, what is
 queued if it comes too late or comes again, and what is ignored.
 */
module AgentOutcomes {
  import opened Sequences
  import opened Json
  import opened AgentStore
  import opened AgentOutbox
  import opened AgentDelivery
  import opened AgentRuns
  import opened AgentAnswers

  /** The command is new, and nothing but its age can keep it from being executed. */
  predicate Executable(store: Image, d: Delivery) {
    Admitted(store, d) && !Cached(store.processed, d.commandId) && d.capable && d.reachesDaemon
  }

  /** The delivery carries a time and a lifetime. */
  predicate Limited(d: Delivery) { d.timestamp.Some? && d.ttl > 0 }

  function Age(d: Delivery): int
    requires d.timestamp.Some?
  {
    d.now - d.timestamp.value
  }

  lemma ExecutionRecorded(m: Machine, head: seq<Action>, id: string, rest: seq<Action>, disk: nat -> bool)
    ensures var m' := ApplyAll(m, head + [Execute(id)] + rest, disk);
            m.history <= m'.history && Executed(id) in Added(m, m')
  {
    var m1 := ApplyAll(m, head, disk);
    var m2 := Apply(m1, Execute(id), disk(|head|));
    ThreeParts(m, head, Execute(id), rest, disk);
    HistoryGrows(m, head, disk);
    HistoryGrows(m2, rest, Later(disk, |head| + 1));
    AddedAt(m, ApplyAll(m2, rest, Later(disk, |head| + 1)), |m1.history|);
  }

  /**
   A new command is executed exactly if it is at most as old as its lifetime, or
   has no time or no lifetime.
   */
  lemma ExecutedInTime(c: Config, m: Machine, d: Delivery, disk: nat -> bool)
    requires Executable(m.store, d)
    ensures m.history <= After(c, m, Deliver(d, disk)).history
    ensures Executed(d.commandId) in Added(m, After(c, m, Deliver(d, disk))) <==> !Limited(d) || Age(d) <= d.ttl
  {
    var plan := Plan(m.store, d, c.device, c.outOfOrder);
    PlanShape(c, m, d);
    if Executes(m, d) {
      var head, rest := PlanHead(c, d), PlanTail(c, d) + [RememberEntry(HandledEntry(d))];
      assert plan == head + [Execute(d.commandId)] + rest;
      ExecutionRecorded(m, head, d.commandId, rest, disk);
    } else {
      ApplyAllQuiet(m, plan, disk);
    }
  }

  // The rejection

  lemma ApplyQueues(m: Machine, a: Action, saved: bool)
    requires !a.Restart?
    ensures Apply(m, a, saved).pending == m.pending + Queued([a])
  {
    QueuedOne(a);
  }

  lemma {:induction false} ApplyAllQueues(m: Machine, acts: seq<Action>, disk: nat -> bool)
    requires forall a :: a in acts ==> !a.Restart?
    ensures ApplyAll(m, acts, disk).pending == m.pending + Queued(acts)
    decreases |acts|
  {
    if acts != [] {
      var n := |acts| - 1;
      var init, last := acts[..n], acts[n];
      assert acts == init + [last];
      ApplyAllQueues(m, init, disk);
      ApplyQueues(ApplyAll(m, init, disk), last, disk(n));
      QueuedConcat(init, [last]);
      Assoc(m.pending, Queued(init), Queued([last]));
    }
  }

  /** Everything in the plan of a late command but the memory of it. */
  function LateHead(d: Delivery, device: string): seq<Action> {
    [Miss(d.commandId)] + (SetLast(d.deliveryId)
    + [Ack(d, device, "rejected", "expired_ttl"), Answer(d, device, EXPIRED)])
  }

  lemma LateShape(d: Delivery, device: string, outOfOrder: bool)
    requires Expired(d)
    ensures NewPlan(d, device, outOfOrder) == LateHead(d, device) + [RememberEntry(ExpiredEntry(d))]
    ensures Calm(LateHead(d, device)) && TakeSequence !in LateHead(d, device)
  {
  }

  lemma {:induction false} SameCounter(m: Machine, acts: seq<Action>, disk: nat -> bool)
    requires Calm(acts) && TakeSequence !in acts
    ensures ApplyAll(m, acts, disk).store.sequence == m.store.sequence
    decreases |acts|
  {
    if acts != [] {
      var n := |acts| - 1;
      assert acts == acts[..n] + [acts[n]];
      assert CalmAction(acts[n]);
      SameCounter(m, acts[..n], disk);
    }
  }

  /** The store a late command leaves: no number taken, and the rejection remembered. */
  lemma LateStore(c: Config, m: Machine, d: Delivery, disk: nat -> bool)
    requires Admitted(m.store, d) && !Cached(m.store.processed, d.commandId) && Expired(d)
    ensures var m' := After(c, m, Deliver(d, disk));
            && m'.store.sequence == m.store.sequence
            && m'.store.processed == Remember(m.store.processed, ExpiredEntry(d))
  {
    var head := LateHead(d, c.device);
    LateShape(d, c.device, c.outOfOrder);
    SameCounter(m, head, disk);
    ApplyAllCalm(m, head, disk);
    AgentDelivery.Step(m, head, RememberEntry(ExpiredEntry(d)), disk);
  }

  /** What the agent reports and remembers of a command that came too late. */
  function Rejection(d: Delivery): ProcessedCommand {
    var failed := ExecutionResult("failed", "error", "", "ERR_EXECUTION_FAILED", "expired_ttl", Obj([]));
    if d.requiresAck then ProcessedCommand(d.commandId, true, "rejected", "expired_ttl", failed)
    else ProcessedCommand(d.commandId, false, "", "", failed)
  }

  /**
   A new command older than its lifetime is not executed and takes no number: a
   rejection and a failed result are queued, and a later delivery of the command
   is answered alike.
   */
  lemma LateRejected(c: Config, m: Machine, d: Delivery, disk: nat -> bool)
    requires Admitted(m.store, d) && !Cached(m.store.processed, d.commandId) && ValidCache(m.store.processed)
    requires Limited(d) && Age(d) > d.ttl
    ensures var m' := After(c, m, Deliver(d, disk));
            && m.history <= m'.history && Quiet(Added(m, m')) && m'.store.sequence == m.store.sequence
            && m'.pending == m.pending + [AckItem(d.ackAt, d.commandId, c.device, "rejected", "expired_ttl"),
                                          ResultItem(d.resultAt, d.commandId, c.device, Rejection(d).result)]
            && (d.commandId != "" ==>
                  Cached(m'.store.processed, d.commandId) && Source(m'.store, d) == Rejection(d))
  {
    var plan := Plan(m.store, d, c.device, c.outOfOrder);
    LateShape(d, c.device, c.outOfOrder);
    NewQuiet(c, d);
    ApplyAllQuiet(m, plan, disk);
    forall a | a in plan ensures !a.Restart? { assert a in LateHead(d, c.device) ==> CalmAction(a); }
    ApplyAllQueues(m, plan, disk);
    NewQueues(c, m.store, d);
    LateStore(c, m, d, disk);
    RememberKeepsCache(m.store.processed, ExpiredEntry(d));
  }

  // The handling

  /** How many numbers the actions take. */
  function Numbers(acts: seq<Action>): nat {
    if acts == [] then 0 else Numbers(acts[..|acts| - 1]) + if acts[|acts| - 1].TakeSequence? then 1 else 0
  }

  /** Neither the cache nor, by a restart, anything else is replaced. */
  predicate Settled(acts: seq<Action>) { forall a :: a in acts ==> !a.Restart? && !a.RememberEntry? }

  lemma {:induction false} ApplyAllNumbers(m: Machine, acts: seq<Action>, disk: nat -> bool)
    requires Settled(acts)
    ensures var store := ApplyAll(m, acts, disk).store;
            store.sequence == m.store.sequence + Numbers(acts) && store.processed == m.store.processed
    decreases |acts|
  {
    if acts != [] {
      var n := |acts| - 1;
      assert acts == acts[..n] + [acts[n]];
      ApplyAllNumbers(m, acts[..n], disk);
    }
  }

  lemma {:induction false} NumbersConcat(a: seq<Action>, b: seq<Action>)
    ensures Numbers(a + b) == Numbers(a) + Numbers(b)
    decreases |b|
  {
    if b == [] {
      assert a + b == a;
    } else {
      var n := |b| - 1;
      assert (a + b)[..|a + b| - 1] == a + b[..n];
      NumbersConcat(a, b[..n]);
    }
  }

  lemma NumbersOne(a: Action)
    ensures Numbers([a]) == if a.TakeSequence? then 1 else 0
  {
    assert [a][..0] == [];
  }

  lemma NumbersWhen(b: bool, a: Action)
    ensures Numbers(When(b, a)) == if b && a.TakeSequence? then 1 else 0
  {
    NumbersOne(a);
  }

  lemma ExecuteNumbers(d: Delivery)
    ensures Numbers(ExecutePlan(d)) == if d.capable then 1 else 0
  {
    NumbersWhen(d.capable, TakeSequence);
    NumbersWhen(d.capable && d.reachesDaemon, Execute(d.commandId));
    NumbersConcat(When(d.capable, TakeSequence), When(d.capable && d.reachesDaemon, Execute(d.commandId)));
  }

  /** Everything in the plan of a new command in time but the memory of it: up to its execution, and its answer. */
  function HandledHead(d: Delivery, device: string, outOfOrder: bool): seq<Action> {
    [Miss(d.commandId)] + BeforeAnswer(d, device, outOfOrder)
  }

  function HandledTail(d: Delivery, device: string, outOfOrder: bool): seq<Action> {
    [Answer(d, device, d.response)] + When(d.requiresAck && outOfOrder, Ack(d, device, "received", ""))
  }

  lemma Regrouped(a: seq<Action>, b: seq<Action>, c: seq<Action>, d: seq<Action>)
    ensures a + (b + (c + d)) == a + b + c + d
  {
  }

  lemma HandledShape(d: Delivery, device: string, outOfOrder: bool)
    requires !Expired(d)
    ensures NewPlan(d, device, outOfOrder)
            == HandledHead(d, device, outOfOrder) + HandledTail(d, device, outOfOrder)
               + [RememberEntry(HandledEntry(d))]
  {
    Regrouped([Miss(d.commandId)], BeforeAnswer(d, device, outOfOrder), HandledTail(d, device, outOfOrder),
              [RememberEntry(HandledEntry(d))]);
  }

  lemma BeforeSettled(d: Delivery, device: string, outOfOrder: bool)
    ensures Settled(BeforeAnswer(d, device, outOfOrder))
  {
  }

  lemma HandledSettled(d: Delivery, device: string, outOfOrder: bool)
    ensures Settled(HandledHead(d, device, outOfOrder) + HandledTail(d, device, outOfOrder))
  {
    BeforeSettled(d, device, outOfOrder);
    assert Settled([Miss(d.commandId)]) && Settled(HandledTail(d, device, outOfOrder));
  }

  lemma HeadNumbers(d: Delivery, device: string, outOfOrder: bool)
    ensures Numbers(HandledHead(d, device, outOfOrder)) == if d.capable then 1 else 0
  {
    var a, b := SetLast(d.deliveryId), When(d.requiresAck && !outOfOrder, Ack(d, device, "received", ""));
    NumbersOne(Miss(d.commandId));
    NumbersWhen(d.deliveryId != "", SetLastDelivery(d.deliveryId));
    NumbersWhen(d.requiresAck && !outOfOrder, Ack(d, device, "received", ""));
    NumbersConcat(a, b);
    ExecuteNumbers(d);
    NumbersConcat(a + b, ExecutePlan(d));
    NumbersConcat([Miss(d.commandId)], BeforeAnswer(d, device, outOfOrder));
  }

  lemma TailNumbers(d: Delivery, device: string, outOfOrder: bool)
    ensures Numbers(HandledTail(d, device, outOfOrder)) == 0
  {
    var b := When(d.requiresAck && outOfOrder, Ack(d, device, "received", ""));
    NumbersOne(Answer(d, device, d.response));
    NumbersWhen(d.requiresAck && outOfOrder, Ack(d, device, "received", ""));
    NumbersConcat([Answer(d, device, d.response)], b);
  }

  lemma RememberedLast(m: Machine, acts: seq<Action>, e: ProcessedCommand, disk: nat -> bool)
    requires Settled(acts)
    ensures var store := ApplyAll(m, acts + [RememberEntry(e)], disk).store;
            store.sequence == m.store.sequence + Numbers(acts) && store.processed == Remember(m.store.processed, e)
  {
    ApplyAllNumbers(m, acts, disk);
    AgentDelivery.Step(m, acts, RememberEntry(e), disk);
  }

  lemma HandledStore(c: Config, m: Machine, d: Delivery, disk: nat -> bool)
    requires Admitted(m.store, d) && !Cached(m.store.processed, d.commandId) && !Expired(d)
    ensures var m' := After(c, m, Deliver(d, disk));
            && m'.store.sequence == m.store.sequence + (if d.capable then 1 else 0)
            && m'.store.processed == Remember(m.store.processed, HandledEntry(d))
  {
    var head, tail := HandledHead(d, c.device, c.outOfOrder), HandledTail(d, c.device, c.outOfOrder);
    HandledShape(d, c.device, c.outOfOrder);
    HandledSettled(d, c.device, c.outOfOrder);
    HeadNumbers(d, c.device, c.outOfOrder);
    TailNumbers(d, c.device, c.outOfOrder);
    NumbersConcat(head, tail);
    RememberedLast(m, head + tail, HandledEntry(d), disk);
  }

  /**
   A new command in time takes one number if its method is known and none
   otherwise; its response is queued, with an acknowledgement if one is required,
   which comes first unless the out-of-order fault is on; and it is remembered
   with what was reported.
   */
  lemma HandledOutcome(c: Config, m: Machine, d: Delivery, disk: nat -> bool)
    requires Admitted(m.store, d) && !Cached(m.store.processed, d.commandId) && ValidCache(m.store.processed)
    requires !Limited(d) || Age(d) <= d.ttl
    ensures var m' := After(c, m, Deliver(d, disk));
            var acks := if d.requiresAck then [AckItem(d.ackAt, d.commandId, c.device, "received", "")] else [];
            var result := [ResultItem(d.resultAt, d.commandId, c.device, d.response)];
            && m'.store.sequence == m.store.sequence + (if d.capable then 1 else 0)
            && m'.pending == m.pending + (if c.outOfOrder then result + acks else acks + result)
            && (d.commandId != "" ==>
                  && Cached(m'.store.processed, d.commandId)
                  && Source(m'.store, d).requiresAck == d.requiresAck && Source(m'.store, d).result == d.response)
  {
    var plan := Plan(m.store, d, c.device, c.outOfOrder);
    HandledShape(d, c.device, c.outOfOrder);
    HandledSettled(d, c.device, c.outOfOrder);
    HandledStore(c, m, d, disk);
    ApplyAllQueues(m, plan, disk);
    NewQueues(c, m.store, d);
    RememberKeepsCache(m.store.processed, HandledEntry(d));
  }

  /** A delivery without an envelope or with a bad signature changes nothing at all. */
  lemma UnsignedIgnored(c: Config, m: Machine, d: Delivery, disk: nat -> bool)
    requires !d.hasEnvelope || !d.signatureOk
    ensures After(c, m, Deliver(d, disk)) == m
  {
  }

  lemma HitShape(entry: ProcessedCommand, d: Delivery, device: string)
    ensures Calm(HitPlan(entry, d, device)) && TakeSequence !in HitPlan(entry, d, device)
    ensures forall a :: a in HitPlan(entry, d, device) ==> !a.Restart?
  {
  }

  lemma HitStore(c: Config, m: Machine, entry: ProcessedCommand, d: Delivery, disk: nat -> bool)
    ensures var m' := ApplyAll(m, HitPlan(entry, d, c.device), disk);
            && m.history <= m'.history && Quiet(Added(m, m'))
            && m'.store.sequence == m.store.sequence && m'.store.processed == m.store.processed
  {
    var plan := HitPlan(entry, d, c.device);
    HitShape(entry, d, c.device);
    ApplyAllCalm(m, plan, disk);
    SameCounter(m, plan, disk);
    HitQuiet(entry, d, c.device);
    ApplyAllQuiet(m, plan, disk);
  }

  /**
   A command that is remembered is neither executed nor numbered again: its result
   is queued once more, after an acknowledgement if it needs one, and the cache
   stays as it is.
   */
  lemma RepeatAnswered(c: Config, m: Machine, d: Delivery, disk: nat -> bool)
    requires Admitted(m.store, d) && Cached(m.store.processed, d.commandId)
    ensures var m', entry := After(c, m, Deliver(d, disk)), m.store.processed[Find(m.store.processed, d.commandId)];
            var status := if entry.ackStatus == "" then "received" else entry.ackStatus;
            && m.history <= m'.history && Quiet(Added(m, m'))
            && m'.store.sequence == m.store.sequence && m'.store.processed == m.store.processed
            && m'.pending == m.pending
                             + (if entry.requiresAck
                                then [AckItem(d.ackAt, d.commandId, c.device, status, entry.ackReason)] else [])
                             + [ResultItem(d.resultAt, d.commandId, c.device, entry.result)]
  {
    var entry := m.store.processed[Find(m.store.processed, d.commandId)];
    HitStore(c, m, entry, d, disk);
    HitShape(entry, d, c.device);
    ApplyAllQueues(m, HitPlan(entry, d, c.device), disk);
    HitQueues(c, entry, d);
    var ack := AckItem(d.ackAt, d.commandId, c.device, AckStatus(entry), entry.ackReason);
    Assoc(m.pending, QueuedWhen(entry.requiresAck, ack),
          [ResultItem(d.resultAt, d.commandId, c.device, entry.result)]);
  }
}
