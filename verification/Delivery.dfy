/**
 What one command delivery does: the ordered effects of
 `HandleCommandDelivery` and `CommandProcessor::Handle` on the state file, the
 outbox, the privileged daemon and the history an observer could record.
 */
module AgentDelivery {
  import opened Sequences
  import opened Options
  import opened Json
  import opened AgentStore
  import opened AgentOutbox

  /** A delivery with the inputs the environment supplies while it is handled. */
  datatype Delivery = Delivery(
    hasEnvelope: bool,
    signatureOk: bool,
    deliveryId: string,
    commandId: string,
    requiresAck: bool,
    timestamp: Option<int>,   // header timestamp, if it parses
    ttl: int,
    now: int,
    capable: bool,            // the method maps to a capability
    reachesDaemon: bool,      // the signed request is sent
    response: ExecutionResult,
    ackAt: Stamp,
    resultAt: Stamp)

  predicate Expired(d: Delivery) { d.timestamp.Some? && d.ttl > 0 && d.now > d.timestamp.value + d.ttl }

  const EXPIRED := ExecutionResult("failed", "error", "", "ERR_EXECUTION_FAILED", "expired_ttl", Obj([]))

  /** The effects that can be told apart from outside, in the order they happen. */
  datatype Event =
    | Missed(id: string)
    | Executed(id: string)
    | Remembered(id: string)
    | Answered(id: string, result: ExecutionResult)
    | Acked(id: string, status: string, reason: string)
    | Issued(number: int)
    | Restarted(lostCommands: bool, lostSequence: bool)

  datatype Action =
    | Miss(id: string)
    | SetLastDelivery(id: string)
    | TakeSequence
    | Execute(id: string)
    | Enqueue(item: OutboxItem)
    | RememberEntry(entry: ProcessedCommand)
    | Restart(files: Files)

  /** Which of the agent's files a restart can read. */
  datatype Files = Files(state: bool, outbox: bool)

  /** Memory and files of the agent, and the history so far. */
  datatype Machine = Machine(
    store: Image,
    storeFile: Image,
    pending: seq<OutboxItem>,
    outboxFile: seq<OutboxItem>,
    history: seq<Event>)

  function StoreTo(m: Machine, store: Image, saved: bool): Machine {
    m.(store := store, storeFile := if saved then store else m.storeFile)
  }

  function Log(m: Machine, e: Event): Machine { m.(history := m.history + [e]) }

  function EnqueueEvent(item: OutboxItem): Event {
    if item.kind == RESULT then Answered(item.commandId, item.result)
    else Acked(item.commandId, item.ackStatus, item.ackReason)
  }

  /** The state a restart begins with. */
  function Reloaded(file: Image, readable: bool): Image { if readable then Loaded(file) else EMPTY }

  /** One action; `saved` says whether its file write, if it has one, succeeds. */
  function Apply(m: Machine, a: Action, saved: bool): Machine {
    match a
    case Miss(id) => Log(m, Missed(id))
    case SetLastDelivery(id) => StoreTo(m, m.store.(lastDeliveryId := id), saved)
    case TakeSequence =>
      Log(StoreTo(m, m.store.(sequence := m.store.sequence + 1), saved), Issued(m.store.sequence + 1))
    case Execute(id) => Log(m, Executed(id))
    case Enqueue(item) =>
      var pending := m.pending + [item];
      Log(m.(pending := pending, outboxFile := if saved then pending else m.outboxFile), EnqueueEvent(item))
    case RememberEntry(entry) =>
      if entry.commandId == "" then m
      else
        Log(StoreTo(m, m.store.(processed := Remember(m.store.processed, entry)), saved), Remembered(entry.commandId))
    case Restart(files) =>
      var store := Reloaded(m.storeFile, files.state);
      Log(m.(store := store, pending := if files.outbox then m.outboxFile else []),
          Restarted(store.processed != m.store.processed, store.sequence != m.store.sequence))
  }

  lemma ApplyRestart(m: Machine, files: Files, saved: bool)
    ensures var store := Reloaded(m.storeFile, files.state);
            var event := Restarted(store.processed != m.store.processed, store.sequence != m.store.sequence);
            Apply(m, Restart(files), saved)
            == Machine(store, m.storeFile, if files.outbox then m.outboxFile else [], m.outboxFile, m.history + [event])
  {
  }

  /** What an action adds to the history. */
  function NewEvents(m: Machine, a: Action): seq<Event> {
    match a
    case Miss(id) => [Missed(id)]
    case SetLastDelivery(_) => []
    case TakeSequence => [Issued(m.store.sequence + 1)]
    case Execute(id) => [Executed(id)]
    case Enqueue(item) => [EnqueueEvent(item)]
    case RememberEntry(entry) => if entry.commandId == "" then [] else [Remembered(entry.commandId)]
    case Restart(files) =>
      var store := Reloaded(m.storeFile, files.state);
      [Restarted(store.processed != m.store.processed, store.sequence != m.store.sequence)]
  }

  lemma ApplyHistory(m: Machine, a: Action, saved: bool)
    ensures Apply(m, a, saved).history == m.history + NewEvents(m, a)
  {
  }

  /** What the history holds after position `i`, before and after an action. */
  lemma ApplyTail(m: Machine, a: Action, saved: bool, i: nat)
    requires i < |m.history|
    ensures var h := Apply(m, a, saved).history;
            i < |h| && h[i] == m.history[i] && h[i + 1..] == m.history[i + 1..] + NewEvents(m, a)
  {
    ApplyHistory(m, a, saved);
  }

  /** The actions in order; `disk(i)` says whether the i-th one's file write succeeds. */
  function ApplyAll(m: Machine, actions: seq<Action>, disk: nat -> bool): Machine {
    if actions == [] then m
    else
      var n := |actions| - 1;
      Apply(ApplyAll(m, actions[..n], disk), actions[n], disk(n))
  }

  lemma Step(m: Machine, done: seq<Action>, a: Action, disk: nat -> bool)
    ensures ApplyAll(m, done + [a], disk) == Apply(ApplyAll(m, done, disk), a, disk(|done|))
  {
  }

  // The plan of a delivery

  function AckStatus(entry: ProcessedCommand): string {
    if entry.ackStatus == "" then "received" else entry.ackStatus
  }

  function SetLast(id: string): seq<Action> { if id == "" then [] else [SetLastDelivery(id)] }

  function When(b: bool, a: Action): seq<Action> { if b then [a] else [] }

  function Ack(d: Delivery, device: string, status: string, reason: string): Action {
    Enqueue(AckItem(d.ackAt, d.commandId, device, status, reason))
  }

  function Answer(d: Delivery, device: string, result: ExecutionResult): Action {
    Enqueue(ResultItem(d.resultAt, d.commandId, device, result))
  }

  /** A repeat: answer from the cache. */
  function HitPlan(entry: ProcessedCommand, d: Delivery, device: string): seq<Action> {
    When(entry.requiresAck, Ack(d, device, AckStatus(entry), entry.ackReason))
    + [Answer(d, device, entry.result)]
    + SetLast(d.deliveryId)
  }

  function ExpiredEntry(d: Delivery): ProcessedCommand {
    if d.requiresAck then ProcessedCommand(d.commandId, true, "rejected", "expired_ttl", EXPIRED)
    else ProcessedCommand(d.commandId, false, "", "", EXPIRED)
  }

  /** Too late: reject without executing, and remember the rejection. */
  function ExpiredPlan(d: Delivery, device: string): seq<Action> {
    SetLast(d.deliveryId)
    + [Ack(d, device, "rejected", "expired_ttl"), Answer(d, device, EXPIRED), RememberEntry(ExpiredEntry(d))]
  }

  function HandledEntry(d: Delivery): ProcessedCommand {
    ProcessedCommand(d.commandId, d.requiresAck, if d.requiresAck then "received" else "", "", d.response)
  }

  function ExecutePlan(d: Delivery): seq<Action> {
    When(d.capable, TakeSequence) + When(d.capable && d.reachesDaemon, Execute(d.commandId))
  }

  /** `CommandProcessor::Handle` up to and including the privileged request. */
  function BeforeAnswer(d: Delivery, device: string, outOfOrder: bool): seq<Action> {
    SetLast(d.deliveryId)
    + When(d.requiresAck && !outOfOrder, Ack(d, device, "received", ""))
    + ExecutePlan(d)
  }

  function AnswerAndRemember(d: Delivery, device: string, outOfOrder: bool): seq<Action> {
    [Answer(d, device, d.response)]
    + When(d.requiresAck && outOfOrder, Ack(d, device, "received", ""))
    + [RememberEntry(HandledEntry(d))]
  }

  function HandlePlan(d: Delivery, device: string, outOfOrder: bool): seq<Action> {
    BeforeAnswer(d, device, outOfOrder) + AnswerAndRemember(d, device, outOfOrder)
  }

  /** The delivery passes the envelope, signature and last-delivery checks. */
  predicate Admitted(store: Image, d: Delivery) {
    d.hasEnvelope && d.signatureOk && !(d.deliveryId != "" && d.deliveryId == store.lastDeliveryId)
  }

  function Plan(store: Image, d: Delivery, device: string, outOfOrder: bool): seq<Action> {
    if !Admitted(store, d) then []
    else if Cached(store.processed, d.commandId) then
      HitPlan(store.processed[Find(store.processed, d.commandId)], d, device)
    else NewPlan(d, device, outOfOrder)
  }

  function NewPlan(d: Delivery, device: string, outOfOrder: bool): seq<Action> {
    [Miss(d.commandId)] + if Expired(d) then ExpiredPlan(d, device) else HandlePlan(d, device, outOfOrder)
  }

  /**
   `HandleCommandDelivery` and the objects it works on.  `disk(k)` is the
   outcome of the file write inside the k-th action since the start, `clock`
   counts those actions and `trace` lists them; replaying the trace from the
   starting state gives the present one.
   */
  class Agent {
    const store: AgentStateStore
    const outbox: Outbox
    const device: string
    const outOfOrder: bool
    const disk: nat -> bool
    var clock: nat
    var history: seq<Event>
    ghost const start: Machine
    ghost var trace: seq<Action>

    ghost function View(): Machine
      reads this, store, outbox
    {
      Machine(store.Memory(), store.file, outbox.pending, outbox.file, history)
    }

    ghost predicate Valid()
      reads this, store, outbox
    {
      clock == |trace| && View() == ApplyAll(start, trace, disk)
    }

    constructor (store: AgentStateStore, outbox: Outbox, device: string, outOfOrder: bool, disk: nat -> bool)
      ensures Valid() && trace == [] && history == []
      ensures this.store == store && this.outbox == outbox && this.device == device
      ensures this.outOfOrder == outOfOrder && this.disk == disk
    {
      this.store, this.outbox, this.device, this.outOfOrder := store, outbox, device, outOfOrder;
      this.disk, clock, history, trace := disk, 0, [], [];
      start := Machine(store.Memory(), store.file, outbox.pending, outbox.file, []);
    }

    method SetLastDeliveryIfAny(id: string)
      requires Valid()
      modifies this, store
      ensures Valid() && trace == old(trace) + SetLast(id)
    {
      if id != "" {
        Step(start, trace, SetLastDelivery(id), disk);
        store.SetLastDeliveryId(id, disk(clock));
        clock, trace := clock + 1, trace + [SetLastDelivery(id)];
      }
    }

    method EnqueueAck(d: Delivery, status: string, reason: string)
      requires Valid()
      modifies this, outbox
      ensures Valid() && trace == old(trace) + [Ack(d, device, status, reason)]
    {
      Step(start, trace, Ack(d, device, status, reason), disk);
      outbox.EnqueueAck(d.ackAt, d.commandId, device, status, reason, disk(clock));
      history := history + [Acked(d.commandId, status, reason)];
      clock, trace := clock + 1, trace + [Ack(d, device, status, reason)];
    }

    method EnqueueResult(d: Delivery, result: ExecutionResult)
      requires Valid()
      modifies this, outbox
      ensures Valid() && trace == old(trace) + [Answer(d, device, result)]
    {
      Step(start, trace, Answer(d, device, result), disk);
      outbox.EnqueueResult(d.resultAt, d.commandId, device, result, disk(clock));
      history := history + [Answered(d.commandId, result)];
      clock, trace := clock + 1, trace + [Answer(d, device, result)];
    }

    method RememberCommand(entry: ProcessedCommand)
      requires Valid()
      modifies this, store
      ensures Valid() && trace == old(trace) + [RememberEntry(entry)]
    {
      Step(start, trace, RememberEntry(entry), disk);
      store.RememberCommand(entry, disk(clock));
      if entry.commandId != "" { history := history + [Remembered(entry.commandId)]; }
      clock, trace := clock + 1, trace + [RememberEntry(entry)];
    }

    /** `ReplayCache::NextSeq`, the one counter behind every outgoing number. */
    method NextSeq() returns (n: int)
      requires Valid()
      modifies this, store
      ensures Valid() && trace == old(trace) + [TakeSequence] && n == old(store.sequence) + 1
    {
      Step(start, trace, TakeSequence, disk);
      n := store.NextSequence(disk(clock));
      history := history + [Issued(n)];
      clock, trace := clock + 1, trace + [TakeSequence];
    }

    /** `PrivilegedClient::Execute`: takes a number if the method is known, then asks the daemon. */
    method Execute(d: Delivery)
      requires Valid()
      modifies this, store
      ensures Valid() && trace == old(trace) + ExecutePlan(d)
    {
      if !d.capable { return; }
      var n := NextSeq();
      if d.reachesDaemon {
        Step(start, trace, Action.Execute(d.commandId), disk);
        history := history + [Executed(d.commandId)];
        clock, trace := clock + 1, trace + [Action.Execute(d.commandId)];
      }
    }

    /** `CommandProcessor::Handle`. */
    method Handle(d: Delivery)
      requires Valid()
      modifies this, store, outbox
      ensures Valid() && trace == old(trace) + HandlePlan(d, device, outOfOrder)
    {
      Assoc(trace, BeforeAnswer(d, device, outOfOrder), AnswerAndRemember(d, device, outOfOrder));
      AcknowledgeAndExecute(d);
      ReportAndRemember(d);
    }

    method AcknowledgeAndExecute(d: Delivery)
      requires Valid()
      modifies this, store, outbox
      ensures Valid() && trace == old(trace) + BeforeAnswer(d, device, outOfOrder)
    {
      Acknowledge(d);
      Execute(d);
      Assoc(old(trace),
           SetLast(d.deliveryId) + When(d.requiresAck && !outOfOrder, Ack(d, device, "received", "")),
           ExecutePlan(d));
    }

    method Acknowledge(d: Delivery)
      requires Valid()
      modifies this, store, outbox
      ensures Valid()
      ensures trace == old(trace)
                       + (SetLast(d.deliveryId) + When(d.requiresAck && !outOfOrder, Ack(d, device, "received", "")))
    {
      SetLastDeliveryIfAny(d.deliveryId);
      if d.requiresAck && !outOfOrder { EnqueueAck(d, "received", ""); }
    }

    method ReportAndRemember(d: Delivery)
      requires Valid()
      modifies this, store, outbox
      ensures Valid() && trace == old(trace) + AnswerAndRemember(d, device, outOfOrder)
    {
      EnqueueResult(d, d.response);
      if d.requiresAck && outOfOrder { EnqueueAck(d, "received", ""); }
      RememberCommand(HandledEntry(d));
    }

    method AnswerFromCache(d: Delivery, cached: ProcessedCommand)
      requires Valid()
      modifies this, store, outbox
      ensures Valid() && trace == old(trace) + HitPlan(cached, d, device)
    {
      if cached.requiresAck {
        var status := if cached.ackStatus == "" then "received" else cached.ackStatus;
        EnqueueAck(d, status, cached.ackReason);
      }
      EnqueueResult(d, cached.result);
      SetLastDeliveryIfAny(d.deliveryId);
    }

    method Reject(d: Delivery)
      requires Valid()
      modifies this, store, outbox
      ensures Valid() && trace == old(trace) + ExpiredPlan(d, device)
    {
      SetLastDeliveryIfAny(d.deliveryId);
      EnqueueAck(d, "rejected", "expired_ttl");
      EnqueueResult(d, EXPIRED);
      RememberCommand(ExpiredEntry(d));
    }

    /** Performs exactly the plan of the delivery, in order. */
    method HandleCommandDelivery(d: Delivery) returns (ok: bool)
      requires Valid()
      modifies this, store, outbox
      ensures ok <==> d.hasEnvelope && d.signatureOk
      ensures Valid() && trace == old(trace) + Plan(old(store.Memory()), d, device, outOfOrder)
    {
      if !d.hasEnvelope { return false; }
      if !d.signatureOk { return false; }
      if d.deliveryId != "" && d.deliveryId == store.lastDeliveryId { return true; }
      var hit, cached := store.GetProcessedCommand(d.commandId);
      if hit {
        AnswerFromCache(d, cached);
        return true;
      }
      ProcessNew(d);
      return true;
    }

    /** A command with no cached answer: rejected if it came too late, else handled. */
    method ProcessNew(d: Delivery)
      requires Valid()
      modifies this, store, outbox
      ensures Valid() && trace == old(trace) + NewPlan(d, device, outOfOrder)
    {
      Assoc(trace, [Miss(d.commandId)],
            if Expired(d) then ExpiredPlan(d, device) else HandlePlan(d, device, outOfOrder));
      NoteMiss(d.commandId);
      if d.timestamp.Some? && d.ttl > 0 && d.now > d.timestamp.value + d.ttl {
        Reject(d);
      } else {
        Handle(d);
      }
    }

    method NoteMiss(id: string)
      requires Valid()
      modifies this
      ensures Valid() && trace == old(trace) + [Miss(id)]
    {
      Step(start, trace, Miss(id), disk);
      history := history + [Missed(id)];
      clock, trace := clock + 1, trace + [Miss(id)];
    }

    /** `main` up to the connection. */
    method StartUp(first: bool, second: bool, outboxReadable: bool)
      modifies store, outbox
      ensures store.Memory() == Reloaded(old(store.file), first || second) && store.file == old(store.file)
      ensures outbox.pending == (if outboxReadable then old(outbox.file) else []) && outbox.file == old(outbox.file)
    {
      store.Start();
      store.Load(first);
      outbox.Start();
      outbox.Load(outboxReadable);
      store.Load(second);
    }

    /** A restart of the process: the state is loaded twice, and what no load finds is gone. */
    method RestartProcess(first: bool, second: bool, outboxReadable: bool)
      requires Valid()
      modifies this, store, outbox
      ensures Valid() && trace == old(trace) + [Restart(Files(first || second, outboxReadable))]
    {
      ghost var restart := Restart(Files(first || second, outboxReadable));
      Step(start, trace, restart, disk);
      ApplyRestart(View(), restart.files, disk(clock));
      var processed, sequence := store.processed, store.sequence;
      StartUp(first, second, outboxReadable);
      history := history + [Restarted(store.processed != processed, store.sequence != sequence)];
      clock, trace := clock + 1, trace + [restart];
    }
  }
}
