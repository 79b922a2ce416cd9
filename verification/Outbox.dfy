/**
 The agent's outgoing queue, saved to one file after every change.
 */
module AgentOutbox {
  import opened Sequences
  import opened Json
  import opened CanonicalText
  import opened AgentStore

  const ACK := "COMMAND_ACK"
  const RESULT := "COMMAND_RESULT"
  const TELEMETRY := "TELEMETRY"
  const UPDATE_STATUS := "UPDATE_STATUS"

  datatype OutboxItem = OutboxItem(
    kind: string,
    messageId: string,
    timestamp: string,
    commandId: string,
    deviceId: string,
    ackStatus: string,
    ackReason: string,
    result: ExecutionResult,
    payload: Json<Number>)

  /** A fresh message id and the time of the enqueue. */
  datatype Stamp = Stamp(messageId: string, timestamp: string)

  const NO_RESULT := ExecutionResult("", "", "", "", "", Null)

  function AckItem(at: Stamp, commandId: string, deviceId: string, status: string, reason: string): OutboxItem {
    OutboxItem(ACK, at.messageId, at.timestamp, commandId, deviceId, status, reason, NO_RESULT, Null)
  }

  function ResultItem(at: Stamp, commandId: string, deviceId: string, result: ExecutionResult): OutboxItem {
    OutboxItem(RESULT, at.messageId, at.timestamp, commandId, deviceId, "", "", result, Null)
  }

  function BodyItem(kind: string, at: Stamp, deviceId: string, body: Json<Number>): OutboxItem {
    OutboxItem(kind, at.messageId, at.timestamp, "", deviceId, "", "", NO_RESULT, body)
  }

  function WithoutTelemetry(items: seq<OutboxItem>): seq<OutboxItem> {
    if items == [] then []
    else (if items[0].kind == TELEMETRY then [] else [items[0]]) + WithoutTelemetry(items[1..])
  }

  /** `FlushOutbox` can turn the item into a message; it drops any other. */
  predicate Sendable(item: OutboxItem) {
    || item.kind == ACK
    || item.kind == RESULT
    || ((item.kind == TELEMETRY || item.kind == UPDATE_STATUS) && item.payload.Obj?)
  }

  class Outbox {
    var pending: seq<OutboxItem>
    var file: seq<OutboxItem>

    constructor (file: seq<OutboxItem>)
      ensures pending == [] && this.file == file
    {
      pending := [];
      this.file := file;
    }

    /** The queue of a new process. */
    method Start()
      modifies this
      ensures pending == [] && file == old(file)
    {
      pending := [];
    }

    /** A file that cannot be opened or parsed leaves the queue as it is. */
    method Load(readable: bool)
      modifies this
      ensures pending == (if readable then old(file) else old(pending)) && file == old(file)
    {
      if !readable { return; }
      pending := [];
      for i := 0 to |file|
        invariant file == old(file) && pending == file[..i]
      {
        pending := pending + [file[i]];
      }
    }

    method Save(saved: bool)
      modifies this`file
      ensures file == if saved then pending else old(file)
    {
      if saved { file := pending; }
    }

    method EnqueueAck(at: Stamp, commandId: string, deviceId: string, status: string, reason: string, saved: bool)
      modifies this
      ensures pending == old(pending) + [AckItem(at, commandId, deviceId, status, reason)]
      ensures file == if saved then pending else old(file)
    {
      var item := OutboxItem(ACK, at.messageId, at.timestamp, commandId, deviceId, status, reason, NO_RESULT, Null);
      pending := pending + [item];
      Save(saved);
    }

    method EnqueueResult(at: Stamp, commandId: string, deviceId: string, result: ExecutionResult, saved: bool)
      modifies this
      ensures pending == old(pending) + [ResultItem(at, commandId, deviceId, result)]
      ensures file == if saved then pending else old(file)
    {
      pending := pending + [OutboxItem(RESULT, at.messageId, at.timestamp, commandId, deviceId, "", "", result, Null)];
      Save(saved);
    }

    /** Replaces whatever telemetry is still waiting. */
    method EnqueueTelemetry(at: Stamp, deviceId: string, body: Json<Number>, saved: bool)
      modifies this
      ensures pending == WithoutTelemetry(old(pending)) + [BodyItem(TELEMETRY, at, deviceId, body)]
      ensures file == if saved then pending else old(file)
    {
      var i := 0;
      while i < |pending|
        invariant 0 <= i <= |pending| && file == old(file)
        invariant pending[..i] + WithoutTelemetry(pending[i..]) == WithoutTelemetry(old(pending))
        decreases |pending| - i
      {
        ghost var kept, rest := pending[..i], pending[i..];
        if pending[i].kind == TELEMETRY {
          pending := pending[..i] + pending[i + 1..];
          assert pending[..i] == kept && pending[i..] == rest[1..];
        } else {
          i := i + 1;
          assert pending[..i] == kept + [rest[0]] && pending[i..] == rest[1..];
          Assoc(kept, [rest[0]], WithoutTelemetry(rest[1..]));
        }
      }
      assert pending[..i] == pending && pending[i..] == [];
      pending := pending + [BodyItem(TELEMETRY, at, deviceId, body)];
      Save(saved);
    }

    method EnqueueUpdateStatus(at: Stamp, deviceId: string, body: Json<Number>, saved: bool)
      modifies this
      ensures pending == old(pending) + [BodyItem(UPDATE_STATUS, at, deviceId, body)]
      ensures file == if saved then pending else old(file)
    {
      pending := pending + [BodyItem(UPDATE_STATUS, at, deviceId, body)];
      Save(saved);
    }

    method PopFront(saved: bool)
      modifies this
      ensures pending == if old(pending) == [] then [] else old(pending)[1..]
      ensures file == if old(pending) != [] && saved then pending else old(file)
    {
      if pending == [] { return; }
      pending := pending[1..];
      Save(saved);
    }
  }
}
