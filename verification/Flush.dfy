/**
 `FlushOutbox`: sends the queue in order, dropping what cannot be sent and
 repeating acknowledgements and results while a duplicate budget lasts.
 */
module AgentFlush {
  import opened Sequences
  import opened Json
  import opened CanonicalText
  import opened AgentStore
  import opened AgentOutbox
  import opened OutboxRuns

  /** A message that went out: the item it was built from and its sequence number. */
  datatype Sent = Sent(item: OutboxItem, sequence: int)

  function Copies(item: OutboxItem, n: nat): seq<OutboxItem> {
    if n == 0 then [] else [item] + Copies(item, n - 1)
  }

  /**
   What a complete flush sends: every sendable item once, in order, and the
   whole duplicate budget of its kind spent on the first item of that kind.
   */
  function Expected(pending: seq<OutboxItem>, acks: nat, results: nat): seq<OutboxItem> {
    if pending == [] then []
    else
      var item := pending[0];
      if item.kind == ACK then Copies(item, 1 + acks) + Expected(pending[1..], 0, results)
      else if item.kind == RESULT then Copies(item, 1 + results) + Expected(pending[1..], acks, 0)
      else (if Sendable(item) then [item] else []) + Expected(pending[1..], acks, results)
  }

  /** The items numbered consecutively from `first`. */
  function Numbered(items: seq<OutboxItem>, first: int): (r: seq<Sent>)
    ensures |r| == |items| && forall i :: 0 <= i < |items| ==> r[i] == Sent(items[i], first + i)
  {
    seq(|items|, i requires 0 <= i < |items| => Sent(items[i], first + i))
  }

  /** Every sendable item goes out, whatever the budgets. */
  lemma {:induction false} ExpectedHasAll(pending: seq<OutboxItem>, acks: nat, results: nat, k: nat)
    requires k < |pending| && Sendable(pending[k])
    ensures pending[k] in Expected(pending, acks, results)
  {
    if k > 0 {
      var item := pending[0];
      ExpectedHasAll(pending[1..], if item.kind == ACK then 0 else acks,
                     if item.kind == RESULT then 0 else results, k - 1);
    }
  }

  /** The measurement enqueued last goes out in a complete flush, whatever waited before it. */
  lemma TelemetryGoesOut(pending: seq<OutboxItem>, at: Stamp, device: string, ms: seq<Member<Number>>,
                         acks: nat, results: nat)
    ensures var item := BodyItem("TELEMETRY", at, device, Obj(ms));
            item in Expected(WithoutTelemetry(pending) + [item], acks, results)
  {
    var item, kept := BodyItem("TELEMETRY", at, device, Obj(ms)), WithoutTelemetry(pending);
    assert (kept + [item])[|kept|] == item;
    ExpectedHasAll(kept + [item], acks, results, |kept|);
  }

  /** Without a budget a flush sends exactly the sendable items, once each. */
  lemma {:induction false} ExpectedPlain(pending: seq<OutboxItem>)
    ensures Expected(pending, 0, 0) == OnlySendable(pending)
  {
    if pending != [] {
      ExpectedPlain(pending[1..]);
      assert Copies(pending[0], 1) == [pending[0]] + Copies(pending[0], 0);
    }
  }

  function OnlySendable(items: seq<OutboxItem>): seq<OutboxItem> {
    if items == [] then []
    else (if Sendable(items[0]) then [items[0]] else []) + OnlySendable(items[1..])
  }

  predicate Holds(items: seq<OutboxItem>, kind: string) { exists i :: 0 <= i < |items| && items[i].kind == kind }

  /** Beyond one message for each item the budgets are spent, each whole if an item of its kind is there. */
  lemma {:induction false} ExpectedCount(pending: seq<OutboxItem>, acks: nat, results: nat)
    ensures |Expected(pending, acks, results)|
            == |OnlySendable(pending)| + (if Holds(pending, "COMMAND_ACK") then acks else 0)
               + (if Holds(pending, "COMMAND_RESULT") then results else 0)
  {
    if pending != [] {
      var item := pending[0];
      CopiesLength(item, 1 + acks);
      CopiesLength(item, 1 + results);
      ExpectedCount(pending[1..], if item.kind == ACK then 0 else acks, if item.kind == RESULT then 0 else results);
    }
  }

  lemma {:induction false} CopiesLength(item: OutboxItem, n: nat)
    ensures |Copies(item, n)| == n
  {
    if n > 0 { CopiesLength(item, n - 1); }
  }

  /** One message sent without popping: the same head again, one duplicate less. */
  lemma RepeatAck(pending: seq<OutboxItem>, acks: nat, results: nat)
    requires pending != [] && pending[0].kind == ACK && acks > 0
    ensures Expected(pending, acks, results) == [pending[0]] + Expected(pending, acks - 1, results)
  {
    assert Copies(pending[0], 1 + acks) == [pending[0]] + Copies(pending[0], acks);
  }

  lemma RepeatResult(pending: seq<OutboxItem>, acks: nat, results: nat)
    requires pending != [] && pending[0].kind == RESULT && results > 0
    ensures Expected(pending, acks, results) == [pending[0]] + Expected(pending, acks, results - 1)
  {
    assert Copies(pending[0], 1 + results) == [pending[0]] + Copies(pending[0], results);
  }

  /** One message sent and popped, or an unsendable item dropped. */
  lemma Advance(pending: seq<OutboxItem>, acks: nat, results: nat)
    requires pending != []
    requires pending[0].kind == ACK ==> acks == 0
    requires pending[0].kind == RESULT ==> results == 0
    ensures Expected(pending, acks, results) ==
              (if Sendable(pending[0]) then [pending[0]] else []) + Expected(pending[1..], acks, results)
  {
    var item, rest := pending[0], Expected(pending[1..], acks, results);
    CopyOnce(item);
    if item.kind == ACK || item.kind == RESULT {
      assert Expected(pending, acks, results) == [item] + rest;
    }
  }

  lemma CopyOnce(item: OutboxItem)
    ensures Copies(item, 1) == [item]
  {
  }

  /** The first `n` sends all succeed. */
  predicate Accepted(sends: nat -> bool, n: nat) { n == 0 || (Accepted(sends, n - 1) && sends(n - 1)) }

  lemma AcceptMore(sends: nat -> bool, n: nat)
    requires Accepted(sends, n) && sends(n)
    ensures Accepted(sends, n + 1)
  {
  }

  predicate IsSuffix(a: seq<OutboxItem>, b: seq<OutboxItem>) { |a| <= |b| && a == b[|b| - |a|..] }

  lemma SuffixTail(a: seq<OutboxItem>, b: seq<OutboxItem>)
    requires IsSuffix(a, b) && a != []
    ensures IsSuffix(a[1..], b)
  {
  }

  class Sender {
    const outbox: Outbox
    const store: AgentStateStore
    var duplicateAcks: nat
    var duplicateResults: nat
    var sent: seq<Sent>

    constructor (outbox: Outbox, store: AgentStateStore, acks: nat, results: nat)
      ensures this.outbox == outbox && this.store == store
      ensures duplicateAcks == acks && duplicateResults == results && sent == []
    {
      this.outbox, this.store := outbox, store;
      duplicateAcks, duplicateResults, sent := acks, results, [];
    }

    ghost function Remaining(): seq<OutboxItem>
      reads this, outbox
    {
      Expected(outbox.pending, duplicateAcks, duplicateResults)
    }

    /** Drops an item no message can be built from. */
    method DropHead(saved: bool)
      requires outbox.pending != [] && !Sendable(outbox.pending[0])
      modifies outbox
      ensures outbox.pending == old(outbox.pending)[1..] && Remaining() == old(Remaining())
      ensures outbox.file == if saved then outbox.pending else old(outbox.file)
    {
      Advance(outbox.pending, duplicateAcks, duplicateResults);
      outbox.PopFront(saved);
    }

    /** After a successful send: spend a duplicate and keep the head, or pop it. */
    method HeadSent(sequence: int, saved: bool)
      requires outbox.pending != [] && Sendable(outbox.pending[0])
      modifies this, outbox
      ensures sent == old(sent) + [Sent(old(outbox.pending[0]), sequence)]
      ensures old(Remaining()) == [old(outbox.pending[0])] + Remaining()
      ensures || (outbox.pending == old(outbox.pending)[1..]
                  && duplicateAcks == old(duplicateAcks) && duplicateResults == old(duplicateResults))
              || (outbox.pending == old(outbox.pending)
                  && duplicateAcks + duplicateResults + 1 == old(duplicateAcks + duplicateResults))
      ensures outbox.file == if saved && outbox.pending != old(outbox.pending) then outbox.pending else old(outbox.file)
    {
      var item := outbox.pending[0];
      sent := sent + [Sent(item, sequence)];
      if item.kind == ACK && duplicateAcks > 0 {
        RepeatAck(outbox.pending, duplicateAcks, duplicateResults);
        duplicateAcks := duplicateAcks - 1;
        return;
      }
      if item.kind == RESULT && duplicateResults > 0 {
        RepeatResult(outbox.pending, duplicateAcks, duplicateResults);
        duplicateResults := duplicateResults - 1;
        return;
      }
      Advance(outbox.pending, duplicateAcks, duplicateResults);
      outbox.PopFront(saved);
    }

    /** Both files hold what memory holds. */
    ghost predicate Synced()
      reads outbox, store
    {
      outbox.file == outbox.pending && store.file == store.Memory()
    }

    /** The moves, from `b`, lead to the present queue and file with `done` sent on the way. */
    ghost predicate Follows(b: Box, moves: seq<Move>, done: seq<OutboxItem>)
      reads outbox
    {
      var r := Run(b, moves);
      r.pending == outbox.pending && r.file == outbox.file && r.sent == b.sent + done
    }

    /** One trip round the loop for a sendable head: a number is taken first, whether or not the send works. */
    method SendHead(accepted: bool, numberSaved: bool, popSaved: bool)
      requires outbox.pending != [] && Sendable(outbox.pending[0])
      modifies this, outbox, store
      ensures store.Memory() == old(store.Memory()).(sequence := old(store.sequence) + 1)
      ensures accepted ==>
                && sent == old(sent) + [Sent(old(outbox.pending[0]), store.sequence)]
                && old(Remaining()) == [old(outbox.pending[0])] + Remaining()
                && ((outbox.pending == old(outbox.pending)[1..]
                     && duplicateAcks + duplicateResults == old(duplicateAcks + duplicateResults)
                     && outbox.file == if popSaved then outbox.pending else old(outbox.file))
                    || (outbox.pending == old(outbox.pending)
                        && duplicateAcks + duplicateResults + 1 == old(duplicateAcks + duplicateResults)
                        && outbox.file == old(outbox.file)))
      ensures !accepted ==>
                sent == old(sent) && outbox.pending == old(outbox.pending) && outbox.file == old(outbox.file)
                && Remaining() == old(Remaining())
      ensures numberSaved && popSaved && old(Synced()) ==> Synced()
    {
      var sequence := store.NextSequence(numberSaved);
      if accepted { HeadSent(sequence, popSaved); }
    }

    /** The same trip as a move of the outbox. */
    method SendAndFollow(accepted: bool, numberSaved: bool, popSaved: bool,
                         ghost b: Box, ghost moves: seq<Move>, ghost done: seq<OutboxItem>)
      returns (ghost moves': seq<Move>)
      requires outbox.pending != [] && Sendable(outbox.pending[0]) && Follows(b, moves, done)
      modifies this, outbox, store
      ensures store.Memory() == old(store.Memory()).(sequence := old(store.sequence) + 1)
      ensures IsSuffix(outbox.pending, old(outbox.pending))
      ensures accepted ==>
                && sent == old(sent) + [Sent(old(outbox.pending[0]), store.sequence)]
                && old(Remaining()) == [old(outbox.pending[0])] + Remaining()
                && (|outbox.pending| < |old(outbox.pending)| ||
                    (|outbox.pending| == |old(outbox.pending)|
                     && duplicateAcks + duplicateResults < old(duplicateAcks + duplicateResults)))
                && Follows(b, moves', done + [old(outbox.pending[0])])
      ensures !accepted ==>
                && sent == old(sent) && outbox.pending == old(outbox.pending) && Remaining() == old(Remaining())
                && Follows(b, moves', done)
      ensures numberSaved && popSaved && old(Synced()) ==> Synced()
    {
      ghost var before := outbox.pending;
      SuffixTail(before, before);
      moves' := moves;
      SendHead(accepted, numberSaved, popSaved);
      if accepted {
        ghost var move := if outbox.pending == before then Send else SendAndPop(popSaved);
        RunSnoc(b, moves, move);
        moves' := moves + [move];
        Assoc(b.sent, done, [before[0]]);
      }
    }

    /** Drops the head as a move of the outbox. */
    method DropAndFollow(saved: bool,
                         ghost b: Box, ghost moves: seq<Move>, ghost done: seq<OutboxItem>)
      returns (ghost moves': seq<Move>)
      requires outbox.pending != [] && !Sendable(outbox.pending[0]) && Follows(b, moves, done)
      modifies outbox
      ensures outbox.pending == old(outbox.pending)[1..] && Remaining() == old(Remaining())
      ensures outbox.file == if saved then outbox.pending else old(outbox.file)
      ensures Follows(b, moves', done)
    {
      RunSnoc(b, moves, Drop(saved));
      DropHead(saved);
      moves' := moves + [Drop(saved)];
    }

    /**
     Of the messages a flush should send, `done` went out, numbered on from the
     shared counter; the rest is what a flush would send from here; `unused`
     more numbers were taken; and the moves lead from the outbox then to the
     outbox now.
     */
    ghost predicate Progress(goal: Goal, done: seq<OutboxItem>, unused: nat, moves: seq<Move>)
      reads this, outbox, store
    {
      && done + Remaining() == goal.items
      && sent == goal.sent + Numbered(done, goal.memory.sequence + 1)
      && store.Memory() == goal.memory.(sequence := goal.memory.sequence + |done| + unused)
      && Follows(goal.b, moves, done)
    }

    /** One trip round the loop for a head that can be sent. */
    method SendTrip(accepted: bool, numberSaved: bool, popSaved: bool,
                    ghost goal: Goal, ghost done: seq<OutboxItem>, ghost moves: seq<Move>)
      returns (ghost moves': seq<Move>)
      requires outbox.pending != [] && Sendable(outbox.pending[0]) && Progress(goal, done, 0, moves)
      modifies this, outbox, store
      ensures IsSuffix(outbox.pending, old(outbox.pending))
      ensures accepted ==>
                && (|outbox.pending| < |old(outbox.pending)| ||
                    (|outbox.pending| == |old(outbox.pending)|
                     && duplicateAcks + duplicateResults < old(duplicateAcks + duplicateResults)))
                && Progress(goal, done + [old(outbox.pending[0])], 0, moves')
      ensures !accepted ==> Remaining() != [] && Progress(goal, done, 1, moves')
      ensures numberSaved && popSaved && old(Synced()) ==> Synced()
    {
      ghost var head := outbox.pending[0];
      HeadExpected(outbox.pending, duplicateAcks, duplicateResults);
      moves' := SendAndFollow(accepted, numberSaved, popSaved, goal.b, moves, done);
      DoneStep(done, head, Remaining(), goal.sent, goal.memory.sequence + 1);
    }

    /** One trip round the loop for a head that cannot. */
    method DropTrip(saved: bool,
                    ghost goal: Goal, ghost done: seq<OutboxItem>, ghost moves: seq<Move>)
      returns (ghost moves': seq<Move>)
      requires outbox.pending != [] && !Sendable(outbox.pending[0]) && Progress(goal, done, 0, moves)
      modifies outbox
      ensures |outbox.pending| < |old(outbox.pending)| && IsSuffix(outbox.pending, old(outbox.pending))
      ensures Progress(goal, done, 0, moves')
      ensures saved && old(Synced()) ==> Synced()
    {
      moves' := DropAndFollow(saved, goal.b, moves, done);
    }

    /** `Progress` with its count of accepted sends; a failed send ends the flush. */
    ghost predicate Reached(goal: Goal, done: seq<OutboxItem>, failed: bool, moves: seq<Move>, sends: nat -> bool)
      reads this, outbox, store
    {
      && Progress(goal, done, if failed then 1 else 0, moves)
      && Accepted(sends, |done|)
      && IsSuffix(outbox.pending, goal.b.pending)
      && (failed ==> Remaining() != [] && !sends(|done|))
    }

    /** One trip round the loop. */
    method Trip(sends: nat -> bool, attempts: nat, numberSaved: bool, popSaved: bool,
                ghost goal: Goal, ghost done: seq<OutboxItem>, ghost moves: seq<Move>)
      returns (dropped: bool, failed: bool, ghost done': seq<OutboxItem>, ghost moves': seq<Move>)
      requires outbox.pending != [] && Reached(goal, done, false, moves, sends) && attempts == |done|
      modifies this, outbox, store
      ensures Reached(goal, done', failed, moves', sends)
      ensures |done'| == if dropped || failed then attempts else attempts + 1
      ensures failed || |outbox.pending| < |old(outbox.pending)| ||
              (|outbox.pending| == |old(outbox.pending)|
               && duplicateAcks + duplicateResults < old(duplicateAcks + duplicateResults))
      ensures numberSaved && popSaved && old(Synced()) ==> Synced()
    {
      ghost var before := outbox.pending;
      dropped, failed, done' := !Sendable(outbox.pending[0]), false, done;
      if dropped {
        moves' := DropTrip(popSaved, goal, done, moves);
      } else {
        failed := !sends(attempts);
        moves' := SendTrip(sends(attempts), numberSaved, popSaved, goal, done, moves);
        if !failed {
          AcceptMore(sends, attempts);
          done' := done + [before[0]];
        }
      }
      SuffixOfSuffix(outbox.pending, before, goal.b.pending);
    }

    /**
     `sends(k)` is the outcome of the k-th send and `writes(k)` that of the k-th
     file write.  On success the queue is empty and every expected message went
     out; on a failed send a proper prefix of them did, and one number was taken
     for the message that did not go out.
     */
    method FlushOutbox(sends: nat -> bool, writes: nat -> bool, ghost b: Box)
      returns (ok: bool, ghost done: seq<OutboxItem>, ghost moves: seq<Move>)
      requires b.pending == outbox.pending && b.file == outbox.file
      modifies this, outbox, store
      ensures Reached(Goal(old(Remaining()), old(sent), old(store.Memory()), b), done, !ok, moves, sends)
      ensures ok ==> outbox.pending == [] && done == old(Remaining())
      ensures (forall k :: writes(k)) && old(Synced()) ==> Synced()
    {
      ghost var goal := Goal(Remaining(), sent, store.Memory(), b);
      var attempts: nat, w: nat, failed := 0, 0, false;
      done, moves := [], [];
      while !failed && outbox.pending != []
        invariant Reached(goal, done, failed, moves, sends) && attempts == |done|
        invariant (forall k :: writes(k)) && old(Synced()) ==> Synced()
        decreases !failed, |outbox.pending|, duplicateAcks + duplicateResults
      {
        var dropped;
        dropped, failed, done, moves := Trip(sends, attempts, writes(w), writes(w + 1), goal, done, moves);
        w := w + 2;
        if !dropped && !failed { attempts := attempts + 1; }
      }
      ok := !failed;
      assert ok ==> Remaining() == [] && done + [] == done;
    }
  }

  /** Where a flush started: what it should send, what was sent before, the store and the outbox. */
  datatype Goal = Goal(items: seq<OutboxItem>, sent: seq<Sent>, memory: Image, b: Box)

  lemma SuffixOfSuffix(a: seq<OutboxItem>, b: seq<OutboxItem>, c: seq<OutboxItem>)
    requires IsSuffix(a, b) && IsSuffix(b, c)
    ensures IsSuffix(a, c)
  {
  }

  lemma HeadExpected(pending: seq<OutboxItem>, acks: nat, results: nat)
    requires pending != [] && Sendable(pending[0])
    ensures Expected(pending, acks, results) != []
  {
  }

  lemma DoneStep(done: seq<OutboxItem>, item: OutboxItem, rest: seq<OutboxItem>, before: seq<Sent>, first: int)
    ensures done + ([item] + rest) == done + [item] + rest
    ensures before + Numbered(done, first) + [Sent(item, first + |done|)] == before + Numbered(done + [item], first)
  {
  }
}
