/**
 Runs of the outbox: enqueues, sends, pops, failed file writes and restarts in
 any order.  Nothing written to the file is lost, nothing overtakes.
 */
module OutboxRuns {
  import opened Json
  import opened CanonicalText
  import opened AgentStore
  import opened AgentOutbox

  /**
   The queue in memory and on disk, the messages sent so far and, as history,
   every item ever enqueued, every item ever written to the file, and those that
   were enqueued before a restart that could not read it.
   */
  datatype Box = Box(
    pending: seq<OutboxItem>,
    file: seq<OutboxItem>,
    sent: seq<OutboxItem>,
    issued: seq<OutboxItem>,
    written: set<OutboxItem>,
    forgotten: set<OutboxItem>)

  const NOTHING := Box([], [], [], [], {}, {})

  datatype Move =
    | Enqueue(item: OutboxItem, saved: bool)
    | EnqueueTelemetry(item: OutboxItem, saved: bool)
    | Send                    // the head goes out and stays: a duplicate, or a crash before the pop
    | SendAndPop(saved: bool)
    | Drop(saved: bool)       // no message can be built from the head
    | Reload(readable: bool)  // a restart, which may not be able to read the file

  predicate Fresh(issued: seq<OutboxItem>, item: OutboxItem) {
    forall i :: 0 <= i < |issued| ==> issued[i].messageId != item.messageId
  }

  predicate Enabled(b: Box, m: Move) {
    match m
    case Enqueue(item, _) => item.kind != TELEMETRY && Fresh(b.issued, item)
    case EnqueueTelemetry(item, _) => item.kind == TELEMETRY && Fresh(b.issued, item)
    case Send => b.pending != [] && Sendable(b.pending[0])
    case SendAndPop(_) => b.pending != [] && Sendable(b.pending[0])
    case Drop(_) => b.pending != [] && !Sendable(b.pending[0])
    case Reload(_) => true
  }

  function Items(xs: seq<OutboxItem>): set<OutboxItem> { set x | x in xs }

  function Store(b: Box, pending: seq<OutboxItem>, saved: bool): Box {
    if saved then b.(pending := pending, file := pending, written := b.written + Items(pending))
    else b.(pending := pending)
  }

  /** A move that is not possible changes nothing. */
  function Next(b: Box, m: Move): Box {
    if !Enabled(b, m) then b else
    match m
    case Enqueue(item, saved) => Store(b.(issued := b.issued + [item]), b.pending + [item], saved)
    case EnqueueTelemetry(item, saved) =>
      Store(b.(issued := b.issued + [item]), WithoutTelemetry(b.pending) + [item], saved)
    case Send => b.(sent := b.sent + [b.pending[0]])
    case SendAndPop(saved) => Store(b.(sent := b.sent + [b.pending[0]]), b.pending[1..], saved)
    case Drop(saved) => Store(b, b.pending[1..], saved)
    case Reload(readable) =>
      if readable then b.(pending := b.file)
      else b.(pending := [], forgotten := b.forgotten + Items(b.issued))
  }

  function Run(b: Box, moves: seq<Move>): Box {
    if moves == [] then b else Next(Run(b, moves[..|moves| - 1]), moves[|moves| - 1])
  }

  // Positions in the order of enqueueing

  function Pos(issued: seq<OutboxItem>, x: OutboxItem): (k: nat)
    requires x in issued
    ensures k < |issued| && issued[k] == x
  {
    if issued[|issued| - 1] == x then |issued| - 1 else Pos(issued[..|issued| - 1], x)
  }

  lemma PosSnoc(issued: seq<OutboxItem>, z: OutboxItem, x: OutboxItem)
    requires x in issued && x != z
    ensures Pos(issued + [z], x) == Pos(issued, x)
  {
  }

  /** All items were enqueued after position `k`. */
  predicate Behind(issued: seq<OutboxItem>, k: int, xs: seq<OutboxItem>) {
    forall x :: x in xs ==> x in issued && k < Pos(issued, x)
  }

  /** The items stand in the order they were enqueued. */
  predicate Ordered(issued: seq<OutboxItem>, xs: seq<OutboxItem>) {
    xs == [] || (xs[0] in issued && Behind(issued, Pos(issued, xs[0]), xs[1..]) && Ordered(issued, xs[1..]))
  }

  lemma BehindSnoc(issued: seq<OutboxItem>, z: OutboxItem, k: int, xs: seq<OutboxItem>)
    requires Behind(issued, k, xs) && z !in issued
    ensures Behind(issued + [z], k, xs)
  {
  }

  lemma {:induction false} OrderedSnoc(issued: seq<OutboxItem>, xs: seq<OutboxItem>, z: OutboxItem)
    requires Ordered(issued, xs) && z !in issued
    ensures Ordered(issued + [z], xs)
  {
    if xs != [] {
      PosSnoc(issued, z, xs[0]);
      BehindSnoc(issued, z, Pos(issued, xs[0]), xs[1..]);
      OrderedSnoc(issued, xs[1..], z);
    }
  }

  /** A new item goes to the end. */
  lemma {:induction false} OrderedPush(issued: seq<OutboxItem>, xs: seq<OutboxItem>, z: OutboxItem)
    requires Ordered(issued, xs) && z !in issued
    ensures Ordered(issued + [z], xs + [z])
  {
    var all := issued + [z];
    assert Pos(all, z) == |issued|;
    if xs == [] {
      assert xs + [z] == [z];
    } else {
      PosSnoc(issued, z, xs[0]);
      BehindSnoc(issued, z, Pos(issued, xs[0]), xs[1..]);
      OrderedPush(issued, xs[1..], z);
      assert (xs + [z])[1..] == xs[1..] + [z];
    }
  }

  lemma {:induction false} WithoutTelemetryHas(xs: seq<OutboxItem>, x: OutboxItem)
    ensures x in WithoutTelemetry(xs) <==> x in xs && x.kind != TELEMETRY
  {
    if xs != [] { WithoutTelemetryHas(xs[1..], x); }
  }

  lemma {:induction false} WithoutTelemetryOrdered(issued: seq<OutboxItem>, xs: seq<OutboxItem>)
    requires Ordered(issued, xs)
    ensures Ordered(issued, WithoutTelemetry(xs))
  {
    if xs != [] {
      WithoutTelemetryOrdered(issued, xs[1..]);
      forall x | x in WithoutTelemetry(xs[1..]) ensures x in xs[1..] { WithoutTelemetryHas(xs[1..], x); }
      var r := WithoutTelemetry(xs);
      if xs[0].kind == TELEMETRY {
        assert r == WithoutTelemetry(xs[1..]);
      } else {
        assert r[0] == xs[0] && r[1..] == WithoutTelemetry(xs[1..]);
      }
    }
  }

  // The invariant

  /** An item that the queue must not lose. */
  predicate Owed(x: OutboxItem) { Sendable(x) && x.kind != TELEMETRY }

  /**
   What the agent enqueues is owed: every acknowledgement, result and status
   report.  Telemetry goes out unless newer telemetry replaces it.  A body that is
   not an object, or a kind no message has, never goes out.
   */
  lemma EnqueuedIsOwed(at: Stamp, id: string, device: string, status: string, reason: string, result: ExecutionResult,
                       body: Json<Number>, kind: string)
    ensures Owed(AckItem(at, id, device, status, reason)) && Owed(ResultItem(at, id, device, result))
    ensures forall x :: x in [AckItem(at, id, device, status, reason), ResultItem(at, id, device, result)] ==>
              x.messageId == at.messageId && x.timestamp == at.timestamp && x.commandId == id && x.deviceId == device
    ensures Owed(BodyItem("UPDATE_STATUS", at, device, body)) <==> body.Obj?
    ensures Sendable(BodyItem("TELEMETRY", at, device, body)) <==> body.Obj?
    ensures Sendable(BodyItem(kind, at, device, body)) ==>
              kind in {"COMMAND_ACK", "COMMAND_RESULT", "TELEMETRY", "UPDATE_STATUS"}
  {
  }

  /** An owed item that no unreadable file made the agent forget. */
  predicate Due(b: Box, x: OutboxItem) { Owed(x) && x !in b.forgotten }

  /** Message ids are never reused. */
  predicate UniqueIds(issued: seq<OutboxItem>) {
    forall i, j :: 0 <= i < j < |issued| ==> issued[i].messageId != issued[j].messageId
  }

  predicate OneTelemetry(xs: seq<OutboxItem>) {
    forall i, j :: 0 <= i < j < |xs| ==> !(xs[i].kind == TELEMETRY && xs[j].kind == TELEMETRY)
  }

  /** The queue `xs` stands in order, with one telemetry item at most, and misses no owed item but sent ones. */
  predicate Holds(b: Box, xs: seq<OutboxItem>) {
    && Ordered(b.issued, xs)
    && OneTelemetry(xs)
    && forall x :: x in b.written && Due(b, x) ==> x in xs || x in b.sent
  }

  /** Everything the queue still answers for, enqueued before `y`, was sent within `done`. */
  predicate NoneSkipped(b: Box, y: OutboxItem, done: seq<OutboxItem>)
    requires y in b.issued
  {
    forall x ::
      x in b.issued && Due(b, x) && (x in b.written || x in b.pending) && Pos(b.issued, x) < Pos(b.issued, y) ==>
        x in done
  }

  predicate InOrder(b: Box) {
    forall j :: 0 <= j < |b.sent| ==> b.sent[j] in b.issued && NoneSkipped(b, b.sent[j], b.sent[..j])
  }

  predicate Recorded(b: Box) {
    && UniqueIds(b.issued)
    && (forall x :: x in b.file && Due(b, x) ==> x in b.written)
    && (forall x :: x in b.written ==> x in b.issued)
    && (forall x :: x in b.forgotten ==> x in b.issued)
  }

  predicate Sound(b: Box) { Recorded(b) && Holds(b, b.pending) && Holds(b, b.file) && InOrder(b) }

  lemma SoundPop(issued: seq<OutboxItem>, xs: seq<OutboxItem>)
    requires xs != [] && Ordered(issued, xs) && OneTelemetry(xs)
    ensures Ordered(issued, xs[1..]) && OneTelemetry(xs[1..])
  {
  }

  lemma {:induction false} NoTelemetryLeft(xs: seq<OutboxItem>)
    ensures forall x :: x in WithoutTelemetry(xs) ==> x.kind != TELEMETRY
  {
    forall x | x in WithoutTelemetry(xs) ensures x.kind != TELEMETRY { WithoutTelemetryHas(xs, x); }
  }

  lemma NotIssued(issued: seq<OutboxItem>, z: OutboxItem)
    requires Fresh(issued, z)
    ensures z !in issued
  {
  }

  /** Nothing was enqueued before the head that is not the head itself. */
  lemma HeadFirst(b: Box, x: OutboxItem)
    requires b.pending != [] && Ordered(b.issued, b.pending) && x in b.pending
    ensures b.pending[0] in b.issued && x in b.issued && Pos(b.issued, b.pending[0]) <= Pos(b.issued, x)
  {
  }

  /** `NoneSkipped` survives a new enqueue and any loss from the queue. */
  lemma NoneSkippedKept(b: Box, b': Box, y: OutboxItem, done: seq<OutboxItem>)
    requires y in b.issued && NoneSkipped(b, y, done) && b'.issued == b.issued && b'.forgotten == b.forgotten
    requires forall x :: (x in b'.pending || x in b'.written) && Due(b, x) ==> x in b.pending || x in b.written
    ensures NoneSkipped(b', y, done)
  {
  }

  lemma InOrderKept(b: Box, b': Box)
    requires InOrder(b) && b'.issued == b.issued && b'.sent == b.sent && b'.forgotten == b.forgotten
    requires forall x :: (x in b'.pending || x in b'.written) && Due(b, x) ==> x in b.pending || x in b.written
    ensures InOrder(b')
  {
  }

  lemma InOrderPush(b: Box, b': Box, z: OutboxItem)
    requires InOrder(b) && z !in b.issued && b'.issued == b.issued + [z]
    requires b'.sent == b.sent && b'.forgotten == b.forgotten
    requires forall x :: x in b'.pending || x in b'.written ==> x in b.pending || x in b.written || x == z
    ensures InOrder(b')
  {
  }

  /** Sending the head skips nothing. */
  lemma SendInOrder(b: Box)
    requires Sound(b) && b.pending != []
    ensures InOrder(b.(sent := b.sent + [b.pending[0]]))
  {
    var y := b.pending[0];
    var b' := b.(sent := b.sent + [y]);
    assert NoneSkipped(b, y, b.sent) by {
      forall x | x in b.issued && Due(b, x) && (x in b.written || x in b.pending) && Pos(b.issued, x) < Pos(b.issued, y)
        ensures x in b.sent
      {
        if x in b.pending { HeadFirst(b, x); }
        assert x in b.written;
      }
    }
    forall j | 0 <= j < |b'.sent| ensures b'.sent[j] in b'.issued && NoneSkipped(b', b'.sent[j], b'.sent[..j]) {
      if j < |b.sent| {
        assert b'.sent[..j] == b.sent[..j];
        NoneSkippedKept(b, b', b.sent[j], b.sent[..j]);
      } else {
        assert b'.sent[..j] == b.sent;
        NoneSkippedKept(b, b', y, b.sent);
      }
    }
  }

  /** Putting a new queue in place, saved or not. */
  lemma StoreSound(b: Box, xs: seq<OutboxItem>, saved: bool)
    requires Recorded(b) && Holds(b, b.file) && Holds(b, xs)
    requires InOrder(b.(pending := xs))
    ensures Sound(Store(b, xs, saved))
  {
  }

  lemma FileSnoc(b: Box, z: OutboxItem)
    requires Holds(b, b.file) && z !in b.issued
    ensures Holds(b.(issued := b.issued + [z]), b.file)
  {
    OrderedSnoc(b.issued, b.file, z);
  }

  lemma UniqueSnoc(issued: seq<OutboxItem>, z: OutboxItem)
    requires UniqueIds(issued) && Fresh(issued, z)
    ensures UniqueIds(issued + [z])
  {
  }

  lemma PushHolds(b: Box, xs: seq<OutboxItem>, z: OutboxItem)
    requires Holds(b, xs) && z !in b.issued
    requires z.kind != TELEMETRY || forall x :: x in xs ==> x.kind != TELEMETRY
    ensures Holds(b.(issued := b.issued + [z]), xs + [z])
  {
    OrderedPush(b.issued, xs, z);
  }

  lemma EnqueueSound(b: Box, xs: seq<OutboxItem>, z: OutboxItem, saved: bool)
    requires Sound(b) && Fresh(b.issued, z) && Holds(b, xs) && forall x :: x in xs ==> x in b.pending
    requires z.kind != TELEMETRY || forall x :: x in xs ==> x.kind != TELEMETRY
    ensures Sound(Store(b.(issued := b.issued + [z]), xs + [z], saved))
  {
    var b1 := b.(issued := b.issued + [z]);
    NotIssued(b.issued, z);
    FileSnoc(b, z);
    UniqueSnoc(b.issued, z);
    PushHolds(b, xs, z);
    InOrderPush(b, b1.(pending := xs + [z]), z);
    StoreSound(b1, xs + [z], saved);
  }

  lemma TelemetrySound(b: Box, z: OutboxItem, saved: bool)
    requires Sound(b) && Fresh(b.issued, z)
    ensures Sound(Store(b.(issued := b.issued + [z]), WithoutTelemetry(b.pending) + [z], saved))
  {
    var xs := WithoutTelemetry(b.pending);
    NoTelemetryLeft(b.pending);
    WithoutTelemetryOrdered(b.issued, b.pending);
    forall x ensures x in xs <==> x in b.pending && x.kind != TELEMETRY { WithoutTelemetryHas(b.pending, x); }
    EnqueueSound(b, xs, z, saved);
  }

  lemma SendSound(b: Box)
    requires Sound(b) && b.pending != []
    ensures Sound(b.(sent := b.sent + [b.pending[0]]))
  {
    SendInOrder(b);
  }

  /** The head may go once it was sent, or if it is not owed. */
  lemma PopSound(b: Box, saved: bool)
    requires Sound(b) && b.pending != [] && (b.pending[0] in b.sent || !Due(b, b.pending[0]))
    ensures Sound(Store(b, b.pending[1..], saved))
  {
    SoundPop(b.issued, b.pending);
    assert b.pending == [b.pending[0]] + b.pending[1..];
    InOrderKept(b, b.(pending := b.pending[1..]));
    StoreSound(b, b.pending[1..], saved);
  }

  lemma NextSound(b: Box, m: Move)
    requires Sound(b)
    ensures Sound(Next(b, m))
  {
    if Enabled(b, m) {
      match m {
        case Enqueue(item, saved) => EnqueueSound(b, b.pending, item, saved);
        case EnqueueTelemetry(item, saved) => TelemetrySound(b, item, saved);
        case Send => SendSound(b);
        case SendAndPop(saved) =>
          SendSound(b);
          PopSound(b.(sent := b.sent + [b.pending[0]]), saved);
        case Drop(saved) => PopSound(b, saved);
        case Reload(readable) => if readable { InOrderKept(b, Next(b, m)); }
      }
    }
  }

  /** In every run the queue is in order, conserved, and sends without overtaking. */
  lemma {:induction false} RunSound(moves: seq<Move>)
    ensures Sound(Run(NOTHING, moves))
  {
    if moves != [] {
      RunSound(moves[..|moves| - 1]);
      NextSound(Run(NOTHING, moves[..|moves| - 1]), moves[|moves| - 1]);
    }
  }

  lemma RunSnoc(b: Box, moves: seq<Move>, m: Move)
    ensures Run(b, moves + [m]) == Next(Run(b, moves), m)
  {
  }

  lemma WrittenGrows(b: Box, m: Move, x: OutboxItem)
    requires x in b.written && x !in b.forgotten && m != Reload(false)
    ensures x in Next(b, m).written && x !in Next(b, m).forgotten
  {
  }

  lemma {:induction false} StillWritten(moves: seq<Move>, k: nat, x: OutboxItem)
    requires k <= |moves| && Reload(false) !in moves[k..]
    requires x in Run(NOTHING, moves[..k]).written && x !in Run(NOTHING, moves[..k]).forgotten
    ensures x in Run(NOTHING, moves).written && x !in Run(NOTHING, moves).forgotten
    decreases |moves|
  {
    if k == |moves| {
      assert moves[..k] == moves;
    } else {
      var n := |moves| - 1;
      assert moves[..n][..k] == moves[..k];
      assert moves[k..] == moves[..n][k..] + [moves[n]];
      StillWritten(moves[..n], k, x);
      WrittenGrows(Run(NOTHING, moves[..n]), moves[n], x);
    }
  }

  /** Short of a restart, an owed item leaves the queue only by being sent. */
  lemma NextKeeps(b: Box, m: Move, x: OutboxItem)
    requires Owed(x) && (x in b.pending || x in b.sent) && !m.Reload?
    ensures x in Next(b, m).pending || x in Next(b, m).sent
  {
    WithoutTelemetryHas(b.pending, x);
    if b.pending != [] { assert b.pending == [b.pending[0]] + b.pending[1..]; }
  }

  predicate NoReload(moves: seq<Move>) { forall m :: m in moves ==> !m.Reload? }

  lemma {:induction false} StillHeld(moves: seq<Move>, k: nat, x: OutboxItem)
    requires k <= |moves| && NoReload(moves[k..]) && Owed(x)
    requires x in Run(NOTHING, moves[..k]).pending || x in Run(NOTHING, moves[..k]).sent
    ensures x in Run(NOTHING, moves).pending || x in Run(NOTHING, moves).sent
    decreases |moves|
  {
    if k == |moves| {
      assert moves[..k] == moves;
    } else {
      var n := |moves| - 1;
      assert moves[..n][..k] == moves[..k];
      assert moves[k..] == moves[..n][k..] + [moves[n]];
      StillHeld(moves[..n], k, x);
      NextKeeps(Run(NOTHING, moves[..n]), moves[n], x);
    }
  }

  /** The k-th move of the run enqueues `x`. */
  predicate Enqueues(moves: seq<Move>, k: nat, x: OutboxItem, saved: bool) {
    k < |moves| && moves[k] == Enqueue(x, saved) && Enabled(Run(NOTHING, moves[..k]), moves[k])
  }

  lemma AfterEnqueue(moves: seq<Move>, k: nat, x: OutboxItem, saved: bool)
    requires Enqueues(moves, k, x, saved)
    ensures x in Run(NOTHING, moves[..k + 1]).pending && (saved ==> x in Run(NOTHING, moves[..k + 1]).written)
    ensures x !in Run(NOTHING, moves[..k + 1]).forgotten
  {
    RunSound(moves[..k]);
    NotIssued(Run(NOTHING, moves[..k]).issued, x);
    RunSnoc(NOTHING, moves[..k], moves[k]);
    assert moves[..k] + [moves[k]] == moves[..k + 1];
  }

  /**
   Conservation.  An enqueued item for which a message exists is, at any later
   point of any run, still pending or was sent, if its enqueue reached the file
   and every restart since could read it, or no restart came since; in the first
   case the file has it too, or it was sent.
   */
  lemma Conservation(moves: seq<Move>, k: nat, x: OutboxItem, saved: bool)
    requires Enqueues(moves, k, x, saved) && Owed(x)
    requires if saved then Reload(false) !in moves[k + 1..] else NoReload(moves[k + 1..])
    ensures x in Run(NOTHING, moves).pending || x in Run(NOTHING, moves).sent
    ensures saved ==> x in Run(NOTHING, moves).file || x in Run(NOTHING, moves).sent
  {
    AfterEnqueue(moves, k, x, saved);
    if saved {
      StillWritten(moves, k + 1, x);
      RunSound(moves);
    } else {
      StillHeld(moves, k + 1, x);
    }
  }

  /**
   Order.  By the time a message goes out, every item enqueued before it and
   written to the file, for which a message exists, has been sent, if every
   restart since could read the file.
   */
  lemma NoOvertaking(moves: seq<Move>, k: nat, x: OutboxItem, j: nat)
    requires Enqueues(moves, k, x, true) && Owed(x) && j < |Run(NOTHING, moves).sent|
    requires Reload(false) !in moves[k + 1..]
    ensures var b := Run(NOTHING, moves);
            x in b.issued && b.sent[j] in b.issued && (Pos(b.issued, x) < Pos(b.issued, b.sent[j]) ==> x in b.sent[..j])
  {
    AfterEnqueue(moves, k, x, true);
    StillWritten(moves, k + 1, x);
    RunSound(moves);
    var b := Run(NOTHING, moves);
    assert NoneSkipped(b, b.sent[j], b.sent[..j]);
  }

  /** What is sent was enqueued, repeats keep their message id, and one telemetry item at most is waiting. */
  lemma OnlyRepeats(moves: seq<Move>, i: nat, j: nat)
    requires i < |Run(NOTHING, moves).sent| && j < |Run(NOTHING, moves).sent|
    ensures Run(NOTHING, moves).sent[i] in Run(NOTHING, moves).issued
    ensures Run(NOTHING, moves).sent[i].messageId == Run(NOTHING, moves).sent[j].messageId ==>
              Run(NOTHING, moves).sent[i] == Run(NOTHING, moves).sent[j]
    ensures OneTelemetry(Run(NOTHING, moves).pending)
  {
    RunSound(moves);
    var b := Run(NOTHING, moves);
    assert b.sent[i] in b.issued && b.sent[j] in b.issued;
  }

  /** After a restart and one more saved enqueue, a saved and unsent item is in the file exactly if it could be read. */
  lemma ReloadLoses(moves: seq<Move>, x: OutboxItem, y: OutboxItem, readable: bool)
    requires var b := Run(NOTHING, moves);
             x in b.file && y.kind != TELEMETRY && Fresh(b.issued, y)
    ensures x in Run(NOTHING, moves + [Reload(readable)] + [Enqueue(y, true)]).file <==> readable
  {
    RunSnoc(NOTHING, moves, Reload(readable));
    RunSnoc(NOTHING, moves + [Reload(readable)], Enqueue(y, true));
    RunSound(moves);
    var b := Run(NOTHING, moves);
    NotIssued(b.issued, y);
    OrderedHas(b.issued, b.file, x);
  }

  lemma OrderedHas(issued: seq<OutboxItem>, xs: seq<OutboxItem>, x: OutboxItem)
    requires Ordered(issued, xs) && x in xs
    ensures x in issued
  {
    if x != xs[0] { assert x in xs[1..]; }
  }
}
