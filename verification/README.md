# Quoodle Linux agent and privileged daemon: a verified model

A Dafny model of the Linux agent, the privileged daemon it drives (in its C and
in its Python form), and the codecs between them, with proofs about whole runs:
deliveries, failed file writes, exceptions, crashes at any point and restarts.
`dafny verify dfyconfig.toml` checks all of it.

## What is modelled

- **Canonical JSON** (`Json`, `CanonicalOrder`, `CanonicalText`, `CanonicalForm`,
  `Doubles`, `Jcs`, `SignedRequest`): JSON as trees with member lists, the compact
  text with a reader of the JSON grammar that takes it back, `jcs.c` as methods appending to a growable
  buffer, the WebSocket canonicaliser that deletes `sig` members, and the path of
  a privileged request from the bytes the agent signs to the bytes the daemon
  verifies, with the rounding of IEEE 754 doubles written out.
- **The agent** (`AgentStore`, `Outbox`, `OutboxRuns`, `Flush`, `Delivery`,
  `AgentRuns`, `AgentAnswers`, `AgentNumbers`, `AgentOutcomes`, `AgentTraffic`): the state store,
  the outbox and the handling of one delivery are classes whose methods are proved
  against functions; a delivery is an ordered list of effects, a crash is a prefix
  of it followed by a restart, every file write may fail, and a restart may find
  either file unreadable. `AgentTraffic` joins deliveries and sends to one queue.
- **The C daemon** (`RequestChecks`, `PrivilegedDaemon`, `DaemonRuns`): the checks
  on the parsed request, each with its refusal; the state directory as a map from
  file names to contents, written through temporary files and renames;
  `handle_request` with every failure and crash as a prefix of its effects.
- **The Python daemon** (`PythonDaemon`, `PythonRuns`, `PythonReplies`): the state
  store and `handle_connection`. Nothing awaits between the cache lookup and the
  reply, so connections interleave as whole steps; exceptions and crashes cut
  one short anywhere.
- **Both sides together** (`Timestamps`, `Composition`): the agent's counter
  feeding the C daemon, the stamp it writes and the daemon's `strptime`, and a
  signed request end to end.
- **Codecs** (`Sequences`, `Bits`, `Sha1`, `Streams`, `SocketFrame`, `WsFrame`):
  SHA-1 against FIPS 180-4, socket frames over scripted short reads, short writes
  and interruptions, and WebSocket frames.
- **Directory walks** (`DirWalk`): two recursive walks that share one list and
  count, with every failing call.

Signing is a pair of functions that verify exactly what was signed; the executor
is a step recorded in a log; clocks, fresh ids and the outcome of every system
call are inputs.

## Properties that do not hold as one might expect

- Not every integer within 2^53 can be signed. `render_number` refuses the odd
  integers between 2^52 and 2^53, because adding one half rounds up there, and
  cJSON's `print_number` drops the last digit of others. `SameBytes` gives the
  exact condition, `UnsafeRequests` two requests outside it.
- The C daemon writes reply and sequence number only after the executor ran, so a
  lost reply means a second execution. `RetryExecutes` says exactly when; the
  Python daemon saves the number first and executes a number at most once even then.
- An executor failure, an unusable answer or a signing failure leave the C
  daemon's sequence number unsaved, just as a crash or a failed write does.
- Two request ids that share their first 127 characters share a reply file in the
  C daemon, and an empty id is filed as `unknown`. `SlotShared` says exactly which
  ids do, `LongIdsAnswer` that the second of them gets the reply of the first.
- A Python daemon that cannot read its state file starts with empty numbers and an
  empty cache. `RestartExecutes`: a request that was executed is executed again
  under the same number exactly if the file could not be read.
- A Python response that cannot be signed is never cached: encoding the canonical
  text raises for a result with a lone surrogate, outside any handler. The command
  ran, and its id runs again under a new number. `RepeatExecutes`: a repeat is
  executed exactly if the response could not be signed or was purged as it was inserted.
- The agent's `main` ignores what `Load` returns. With an unreadable state file it
  starts from an empty cache and counter zero: `RebootExecutes` and `RebootNumbers`
  say that this is exactly when a remembered command runs again and when numbers
  fall back, `ReplayIff` when the daemon then refuses them.
- With an unreadable outbox file the agent starts from an empty queue, and its next
  save destroys what was waiting (`ReloadLoses`).
- The outbox drops, unsent, an item of unknown type and a telemetry or status item
  whose payload is not an object. The whole duplicate budget of a kind goes to the
  first item of that kind.
- `Sha1DigestHex` returns the twenty raw bytes, not hexadecimal digits.
- An interrupted system call is retried on the Unix socket but fails a transfer on
  a plain WebSocket connection.

## Model

| member | source | states |
|---|---|---|
| `CanonicalOrder.SortSorts` | quoodle-agent-linux/privileged/src/jcs.c:105-109 | sorting members with distinct keys permutes them into strictly ascending key order, which `Json.BeforeIff` shows to be byte order |
| `Json.BeforeIff` | quoodle-agent-linux/privileged/src/jcs.c:105-109 | a key comes before another exactly if, where they first differ, it has the smaller byte or ends |
| `CanonicalOrder.SortMembership` | quoodle-agent-linux/privileged/src/jcs.c:111-149 | the sorted list holds exactly the members of the original, for any list |
| `CanonicalOrder.CanonDecides` | quoodle-agent-linux/privileged/src/jcs.c:92-149 | two trees with distinct keys sort to the same tree exactly when they are equal up to member order at every depth |
| `CanonicalText.EscapePrefixFree` | quoodle-agent-linux/privileged/src/jcs.c:48-88 | the escape of one character is never a proper prefix of another escape, so escaped strings can be read back |
| `CanonicalText.QuoteEnds` | quoodle-agent-linux/privileged/src/jcs.c:48-88 | a quoted string shows where it ends and which string it was |
| `CanonicalText.ReadText` | quoodle-agent-linux/privileged/src/jcs.c:48-186 | a reader of the grammar of RFC 8259 takes a printed tree, followed by a delimiter, back as that tree and leaves what follows: literals, digits, escapes and brackets are those of JSON |
| `CanonicalText.ReadBack` | quoodle-agent-linux/privileged/src/jcs.c:163-186 | a whole printed text reads back as the tree it was printed from |
| `CanonicalText.TextEnds` | quoodle-agent-linux/privileged/src/jcs.c:92-186 | unique readability: if two printed trees, each followed by a delimiter, give the same text, the trees and what follows are the same |
| `CanonicalText.TextInjective` | quoodle-agent-linux/privileged/src/jcs.c:163-186 | printing is injective on trees with printable numbers |
| `CanonicalForm.CanonicalIff` | quoodle-agent-linux/agent/src/jcs.cpp:28-32 | two well-formed trees have the same canonical text exactly when they are equal up to member order |
| `CanonicalForm.CanonicalReads` | quoodle-agent-linux/agent/src/jcs.cpp:28-32 | the canonical text, read as JSON, is the same tree but for member order, with all keys in byte order at every depth |
| `WssCanonical.StripDecides` | quoodle-agent-linux/agent/src/wss_client.cpp:496-531 | deleting every `sig` member at every depth decides equality that ignores signatures and member order |
| `WssCanonical.CanonicalizeWssIff` | quoodle-agent-linux/agent/src/wss_client.cpp:496-538 | the signed text of two messages is the same exactly when they agree after deleting every `sig` member and ignoring member order |
| `WssCanonical.SignedTextReads` | quoodle-agent-linux/agent/src/wss_client.cpp:496-538 | the signed text, read as JSON, is the message without any member named `sig` at any depth, keys in byte order |
| `WssCanonical.AttachHas` | quoodle-agent-linux/agent/src/wss_client.cpp:707-733 | the signed message has that one signature and every other member as before |
| `WssCanonical.AttachKeepsSignedText` | quoodle-agent-linux/agent/src/wss_client.cpp:707-733 | attaching or replacing the signature of a message never changes its signed text |
| `Doubles.RenderInteger` | quoodle-agent-linux/privileged/src/jcs.c:151-161 | `render_number` accepts an integer within 2^53, and prints that integer, exactly when it is at most 2^52 in magnitude or even; the others are refused |
| `Doubles.RenderSmall` | quoodle-agent-linux/privileged/src/jcs.c:151-161 | below 2^51 any double is accepted exactly when it is within the double nearest to 1e-9 of an integer, and that integer is printed |
| `Doubles.ToleranceIsNearest` | quoodle-agent-linux/privileged/src/jcs.c:154-154 | the tolerance is the double nearest to one billionth |
| `Doubles.ReprintInteger` | quoodle-agent-linux/privileged/third_party/cjson/cJSON.c:543-600 | printing with 15 digits first and reading back keeps an integer within 2^53 except those from 2^52 on that end in 1 or 9, and 2^53 itself |
| `Doubles.DaemonInteger` | quoodle-agent-linux/privileged/src/uds_server.c:215-244 | print, parse and render together keep an integer within 2^53 exactly when it is at most 2^52, or even and below 2^53 |
| `Doubles.UnsafeIntegers` | quoodle-agent-linux/privileged/src/jcs.c:151-161 | 2^52 + 1 and 2^53 - 1 are integers that do not survive |
| `Jcs.Buffer.Grow` | quoodle-agent-linux/privileged/src/jcs.c:17-32 | the buffer keeps its contents and ends with the smallest doubled capacity that has the room |
| `Jcs.Buffer.Append` | quoodle-agent-linux/privileged/src/jcs.c:34-42 | the contents become the old contents followed by the new text |
| `Jcs.AppendJsonString` | quoodle-agent-linux/privileged/src/jcs.c:48-88 | appends the quoted and escaped string |
| `Jcs.RenderNumber` | quoodle-agent-linux/privileged/src/jcs.c:151-161 | appends the integer nearest to an acceptable double and refuses any other |
| `Jcs.RenderValue` | quoodle-agent-linux/privileged/src/jcs.c:163-186 | appends the canonical text of any tree whose numbers are acceptable, and fails exactly when one is not |
| `Jcs.RenderArray` | quoodle-agent-linux/privileged/src/jcs.c:92-103 | appends the items in order between brackets |
| `Jcs.RenderObject` | quoodle-agent-linux/privileged/src/jcs.c:111-149 | sorts the members by key and appends them between braces |
| `Jcs.Canonicalize` | quoodle-agent-linux/privileged/src/jcs.c:188-207 | produces the canonical text of the tree, or fails exactly when a number is not acceptable |
| `Jcs.RenderingIff` | quoodle-agent-linux/privileged/src/jcs.c:48-186 | on trees of acceptable numbers the rendered texts are equal exactly when the trees, with numbers rounded, are equal up to member order |
| `Jcs.IntegerRenderingIff` | quoodle-agent-linux/privileged/src/jcs.c:48-186 | on trees whose numbers are integers that `render_number` accepts the rendered texts are equal exactly when the trees themselves are equal up to member order |
| `Jcs.RenderingReads` | quoodle-agent-linux/privileged/src/jcs.c:48-186 | the rendered text, read as JSON, is the tree with rounded numbers but for member order, keys in byte order; trees of accepted integers come back as they were |
| `SignedRequest.AgentBlanks` | quoodle-agent-linux/agent/src/privileged_client.cpp:67-73 | the agent signs the canonical text of the request with an empty signature |
| `SignedRequest.AgentSignsIff` | quoodle-agent-linux/agent/src/jcs.cpp:9-32 | the agent signs a request exactly if its parameters hold no float |
| `SignedRequest.DaemonBlanks` | quoodle-agent-linux/privileged/src/uds_server.c:215-244 | looking members up without regard to case and blanking `sig.sig` leaves exactly the request with an empty signature |
| `SignedRequest.DaemonBlankKeeps` | quoodle-agent-linux/privileged/src/uds_server.c:215-244 | in any object the daemon blanks nothing but one member `sig` that is an object |
| `SignedRequest.BlankedEmpty` | quoodle-agent-linux/privileged/src/uds_server.c:223-231 | after blanking, the signature that is looked up is empty, unless it was not a string |
| `SignedRequest.LowerIff` | quoodle-agent-linux/privileged/third_party/cjson/cJSON.c:133-154 | names are compared without regard to the case of the letters A to Z and nothing else |
| `SignedRequest.FitsIff` | quoodle-agent-linux/privileged/third_party/cjson/cJSON.c:1451-1455 | the parser, which counts open brackets, accepts a tree exactly if it is at most a thousand deep |
| `SignedRequest.SameBytes` | quoodle-agent-linux/agent/src/privileged_client.cpp:307-353 | for requests of NUL-free strings and integers within 2^53 the daemon recomputes the bytes the agent signed exactly when nesting is at most 1000 and every integer is at most 2^52, or even and below 2^53 |
| `SignedRequest.UntouchedRequestVerifies` | quoodle-agent-linux/privileged/src/uds_server.c:409-425 | an untouched request passes verification exactly under that condition |
| `SignedRequest.UnsafeRequests` | quoodle-agent-linux/privileged/src/uds_server.c:215-244 | two parameters an agent can send whose untouched request does not verify |
| `RequestChecks.PayloadFields` | quoodle-agent-linux/agent/src/privileged_client.cpp:307-322 | a lookup in the agent's request finds each of its eight fields with the value it was built with |
| `RequestChecks.AgentRequestArrives` | quoodle-agent-linux/privileged/src/uds_server.c:351-425 | the daemon reads the agent's request as it was built, id and number, and denies it exactly if the time stamp does not parse or the signature does not verify |
| `RequestChecks.PassesIff` | quoodle-agent-linux/privileged/src/uds_server.c:333-425 | any request passes the checks exactly if it is an object at most a thousand deep that carries the eight fields with their types, a safe id, a time stamp that parses and a signature for the agent over its own text |
| `RequestChecks.TruncatedTowardsZero` | quoodle-agent-linux/privileged/src/uds_server.c:442-442 | the number is cut towards zero |
| `AgentStore.AgentStateStore.Load` | quoodle-agent-linux/agent/src/state_store.cpp:99-155 | memory becomes the file without entries lacking an id, cut to the newest 256; if the file cannot be read memory stays as it was |
| `AgentStore.AgentStateStore.Save` | quoodle-agent-linux/agent/src/state_store.cpp:157-191 | the file becomes the whole memory, or stays as it was if the write fails |
| `AgentStore.AgentStateStore.NextSequence` | quoodle-agent-linux/agent/src/state_store.cpp:193-199 | returns and stores the next number |
| `AgentStore.AgentStateStore.SetPolicyHash` | quoodle-agent-linux/agent/src/state_store.cpp:205-210 | changes the policy hash and nothing else |
| `AgentStore.AgentStateStore.SetLastDeliveryId` | quoodle-agent-linux/agent/src/state_store.cpp:216-221 | changes the last delivery id and nothing else |
| `AgentStore.AgentStateStore.GetProcessedCommand` | quoodle-agent-linux/agent/src/state_store.cpp:227-240 | finds the first entry of a command exactly when one is cached; an empty id is never found |
| `AgentStore.AgentStateStore.RememberCommand` | quoodle-agent-linux/agent/src/state_store.cpp:242-263 | replaces the entry of the command or appends it, dropping the oldest beyond 256; an empty id is ignored |
| `AgentStore.RememberKeepsCache` | quoodle-agent-linux/agent/src/state_store.cpp:242-263 | the cache keeps distinct non-empty ids, 256 at most, and holds the new entry; a new command goes to the end, and from 256 on the oldest makes room |
| `AgentStore.RememberReplaces` | quoodle-agent-linux/agent/src/state_store.cpp:246-252 | a known command is replaced where it stands and nothing else changes |
| `AgentStore.LoadedHas` | quoodle-agent-linux/agent/src/state_store.cpp:121-148 | loading drops the entries without an id, and only those while no more than 256 are left |
| `AgentStore.LoadSaved` | quoodle-agent-linux/agent/src/state_store.cpp:99-191 | loading what was saved gives back the saved state |
| `AgentOutbox.Outbox.Load` | quoodle-agent-linux/agent/src/outbox.cpp:131-182 | the queue becomes the file, item by item; if the file cannot be read the queue stays as it was |
| `AgentOutbox.Outbox.EnqueueAck` | quoodle-agent-linux/agent/src/outbox.cpp:220-236 | appends an acknowledgement and saves |
| `AgentOutbox.Outbox.EnqueueResult` | quoodle-agent-linux/agent/src/outbox.cpp:238-251 | appends a result and saves |
| `AgentOutbox.Outbox.EnqueueTelemetry` | quoodle-agent-linux/agent/src/outbox.cpp:253-271 | drops all waiting telemetry, keeps the rest in order, and appends the new item |
| `AgentOutbox.Outbox.EnqueueUpdateStatus` | quoodle-agent-linux/agent/src/outbox.cpp:273-284 | appends a status item and saves |
| `AgentOutbox.Outbox.PopFront` | quoodle-agent-linux/agent/src/outbox.cpp:293-301 | removes the head, if any, and saves |
| `OutboxRuns.EnqueuedIsOwed` | quoodle-agent-linux/agent/src/wss_client.cpp:942-982 | acknowledgements, results and status reports with an object body must go out; telemetry goes out exactly if its body is an object; nothing of another kind does |
| `OutboxRuns.RunSound` | quoodle-agent-linux/agent/src/outbox.cpp:131-301 | in every run of enqueues, sends, pops, failed writes and restarts with a readable or unreadable file, queue and file stand in order of enqueueing with one telemetry item at most, miss nothing that was written except what was sent or forgotten by an unreadable file, and nothing sent skipped an earlier item |
| `OutboxRuns.Conservation` | quoodle-agent-linux/agent/src/outbox.cpp:131-301 | an enqueued item is still pending or was sent, if its enqueue reached the file and every restart since could read it, or if no restart came since |
| `OutboxRuns.NoOvertaking` | quoodle-agent-linux/agent/src/wss_client.cpp:933-1015 | by the time a message goes out, every saved item enqueued before it has been sent, if every restart since could read the file |
| `OutboxRuns.ReloadLoses` | quoodle-agent-linux/agent/src/agent_main.cpp:85-86 | after a restart and the next saved enqueue an item that was in the file is still there exactly if the restart could read the file |
| `OutboxRuns.OnlyRepeats` | quoodle-agent-linux/agent/src/outbox.cpp:131-182 | only enqueued items are sent, a repeated message id is the same message, and at most one telemetry item waits |
| `AgentFlush.Sender.HeadSent` | quoodle-agent-linux/agent/src/wss_client.cpp:1002-1013 | after a successful send a duplicate is spent and the head kept, or the head is popped |
| `AgentFlush.Sender.FlushOutbox` | quoodle-agent-linux/agent/src/wss_client.cpp:933-1015 | terminates; on success the queue is empty and exactly the expected messages went out, numbered on from the shared counter; on a failed send a proper prefix did; either way it is a run of the outbox |
| `AgentFlush.ExpectedHasAll` | quoodle-agent-linux/agent/src/wss_client.cpp:933-1015 | every sendable item is among the messages a flush should send |
| `AgentFlush.ExpectedPlain` | quoodle-agent-linux/agent/src/wss_client.cpp:933-1015 | without a duplicate budget a flush sends the sendable items, once each, in order |
| `AgentFlush.ExpectedCount` | quoodle-agent-linux/agent/src/wss_client.cpp:1002-1013 | beyond one message for each sendable item a complete flush sends exactly the budget of every kind that is in the queue |
| `AgentFlush.TelemetryGoesOut` | quoodle-agent-linux/agent/src/wss_client.cpp:970-977 | the measurement enqueued last goes out in a complete flush |
| `AgentDelivery.Agent.Execute` | quoodle-agent-linux/agent/src/privileged_client.cpp:297-356 | takes a number for a known method and then asks the daemon |
| `AgentDelivery.Agent.Handle` | quoodle-agent-linux/agent/src/command_processor.cpp:25-61 | performs the steps of handling in their order: last delivery, acknowledgement, execution, result, memory |
| `AgentDelivery.Agent.AnswerFromCache` | quoodle-agent-linux/agent/src/wss_client.cpp:854-866 | a repeat is answered from its entry |
| `AgentDelivery.Agent.Reject` | quoodle-agent-linux/agent/src/wss_client.cpp:868-899 | a late command is rejected and the rejection remembered |
| `AgentDelivery.Agent.HandleCommandDelivery` | quoodle-agent-linux/agent/src/wss_client.cpp:821-911 | performs exactly the plan of the delivery in the state it found, and reports failure only for a missing envelope or bad signature |
| `AgentDelivery.Agent.NextSeq` | quoodle-agent-linux/agent/src/replay.cpp:11-13 | takes the next number of the one shared counter |
| `AgentRuns.DeliveryIsStep` | quoodle-agent-linux/agent/src/wss_client.cpp:821-911 | what the agent does for a delivery is one step of a run |
| `AgentOutcomes.ExecutedInTime` | quoodle-agent-linux/agent/src/wss_client.cpp:868-877 | a new command is executed exactly if it is at most as old as its lifetime, or has no time or no lifetime |
| `AgentOutcomes.LateRejected` | quoodle-agent-linux/agent/src/wss_client.cpp:878-899 | an older one is not executed and takes no number: the rejection and a failed result are queued and remembered |
| `AgentOutcomes.HandledOutcome` | quoodle-agent-linux/agent/src/command_processor.cpp:25-61 | a command in time takes one number if its method is known, queues its response and the acknowledgement in their order, and is remembered with that response |
| `AgentOutcomes.RepeatAnswered` | quoodle-agent-linux/agent/src/wss_client.cpp:854-866 | a remembered command is answered from its entry, neither executed nor numbered, and the cache stays as it is |
| `AgentOutcomes.UnsignedIgnored` | quoodle-agent-linux/agent/src/wss_client.cpp:824-837 | a delivery without an envelope or with a bad signature changes nothing |
| `AgentRuns.RememberGuards` | quoodle-agent-linux/agent/src/state_store.cpp:242-263 | remembering a command keeps another one cached or is at least the 256th other command since |
| `AgentRuns.StepExecutes` | quoodle-agent-linux/agent/src/command_processor.cpp:25-61 | an execution is of an admitted, uncached, unexpired delivery, once per delivery, and leaves the command guarded |
| `AgentRuns.AtMostOnce` | quoodle-agent-linux/agent/src/wss_client.cpp:854-910 | between two executions of one command, in any run with crashes anywhere, any writes failing and any files unreadable: the process died before the first was remembered, or a restart lost cached commands, or 256 distinct other commands were remembered |
| `AgentRuns.NumberBeforeExecution` | quoodle-agent-linux/agent/src/privileged_client.cpp:307-356 | every execution in a run comes right after the number its request carries |
| `AgentDelivery.Agent.RestartProcess` | quoodle-agent-linux/agent/src/agent_main.cpp:77-89 | a restart keeps what is in the files it can read and starts empty in place of a file it cannot |
| `AgentAnswers.RedeliveryIgnored` | quoodle-agent-linux/agent/src/wss_client.cpp:839-842 | a delivery that was just handled is ignored when it comes again |
| `AgentAnswers.SameAnswer` | quoodle-agent-linux/agent/src/wss_client.cpp:839-911 | in any run two results (or two acknowledgements) queued for one command are equal, unless the command was looked up in vain between them or a restart lost cached commands |
| `AgentAnswers.OneResult` | quoodle-agent-linux/agent/src/command_processor.cpp:29-59 | an admitted delivery queues exactly one result, of the entry it answers from, and at most one acknowledgement, which comes first unless the out-of-order fault is on; any other delivery queues nothing |
| `AgentNumbers.NumbersIncrease` | quoodle-agent-linux/agent/src/state_store.cpp:193-199 | issued numbers strictly increase in every run, except across a restart that lost the counter |
| `AgentNumbers.RunDurable` | quoodle-agent-linux/agent/src/state_store.cpp:99-191 | with every write succeeding and every restart able to read the state file, memory equals the file after every run |
| `AgentNumbers.DurableRuns` | quoodle-agent-linux/agent/src/state_store.cpp:193-263 | with every write succeeding and every restart able to read the state file: bounded at-most-once, strictly increasing numbers and equal answers, across crashes and restarts |
| `AgentNumbers.RebootExecutes` | quoodle-agent-linux/agent/src/agent_main.cpp:77-89 | a command that is remembered and saved is executed again after a restart exactly if the state file could not be read |
| `AgentNumbers.RebootNumbers` | quoodle-agent-linux/agent/src/agent_main.cpp:77-89 | the first number after a restart is above all earlier ones exactly if the state file could be read, or the counter was not above zero |
| `AgentTraffic.BoxIsRun` | quoodle-agent-linux/agent/src/wss_client.cpp:821-1015 | what deliveries, sends, failed writes and restarts do to the queue is one run of the outbox, so every theorem about those runs applies |
| `AgentTraffic.AgentIsRun` | quoodle-agent-linux/agent/src/wss_client.cpp:821-1015 | sends in between leave store, file and history as the run of the same deliveries alone |
| `AgentTraffic.GoAgrees` | quoodle-agent-linux/agent/src/outbox.cpp:131-301 | with unique message ids the queue the deliveries fill, in memory and on disk, is the queue that is sent from |
| `AgentTraffic.SentAnswersAgree` | quoodle-agent-linux/agent/src/wss_client.cpp:839-1015 | every result sent was queued for its command, and two results sent for one command are equal unless the command was forgotten between the two queueings |
| `AgentTraffic.ResultKept` | quoodle-agent-linux/agent/src/command_processor.cpp:25-61 | the result of an admitted delivery is pending or was sent at the end of every run in which its writes succeeded and later restarts could read the outbox file |
| `AgentTraffic.ReportKept` | quoodle-agent-linux/agent/src/wss_client.cpp:913-931 | a saved status report is pending or was sent at the end of every run in which later restarts could read the outbox file |
| `PrivilegedDaemon.IsSafeId` | quoodle-agent-linux/privileged/src/state_store.c:60-74 | accepts exactly the non-empty ids of letters, digits and dashes |
| `PrivilegedDaemon.SafeCodes` | quoodle-agent-linux/privileged/src/state_store.c:60-74 | in ASCII codes these are 45, 48 to 57, 65 to 90 and 97 to 122 |
| `PrivilegedDaemon.SlotIsPrefix` | quoodle-agent-linux/privileged/src/uds_server.c:363-373 | a request is filed under the longest beginning of its id that fits 127 characters |
| `PrivilegedDaemon.SlotShared` | quoodle-agent-linux/privileged/src/uds_server.c:363-373 | ids of 1 to 127 characters are filed together exactly if they are equal, longer ones exactly if their first 127 characters are; an empty id exactly with `unknown` |
| `PrivilegedDaemon.ResponsePathInjective` | quoodle-agent-linux/privileged/src/state_store.c:136-214 | different ids have different reply files |
| `PrivilegedDaemon.PathsApart` | quoodle-agent-linux/privileged/src/state_store.c:76-214 | reply files, the sequence file and temporary files never share a name |
| `PrivilegedDaemon.ScanSaved` | quoodle-agent-linux/privileged/src/state_store.c:76-134 | the sequence number written with `%ld` is read back by `%ld` |
| `DaemonRuns.SequenceSaved` | quoodle-agent-linux/privileged/src/state_store.c:76-134 | loading after a save gives the saved number if the save completed, and what loading gave before if it stopped anywhere |
| `PrivilegedDaemon.Daemon.Save` | quoodle-agent-linux/privileged/src/state_store.c:106-134 | writes the temporary file and renames it, as far as it gets; the target changes only by the rename |
| `PrivilegedDaemon.Daemon.HandleRequest` | quoodle-agent-linux/privileged/src/uds_server.c:351-510 | the reply and the new files and executions are those of the checks, cache lookup, sequence test, execution and two saves in that order |
| `DaemonRuns.HandleKeeps` | quoodle-agent-linux/privileged/src/uds_server.c:427-435 | a request for an id with a reply on disk gets that reply or a refusal and changes nothing; other requests leave the reply alone |
| `DaemonRuns.ReplyIsOnDisk` | quoodle-agent-linux/privileged/src/uds_server.c:427-510 | a reply that was served stands in the reply file of its id |
| `DaemonRuns.WriteOnce` | quoodle-agent-linux/privileged/src/uds_server.c:427-510 | once a reply is on disk it stays unchanged through any run of requests, failures and crashes, and its id is never executed again |
| `DaemonRuns.RepliesAgree` | quoodle-agent-linux/privileged/src/uds_server.c:427-503 | after one successful reply every later reply filed under the same id is the same or a refusal, without execution |
| `DaemonRuns.HealthyServes` | quoodle-agent-linux/privileged/src/uds_server.c:427-510 | a checked request without a reply and with a new number is executed and answered with the executor's text if nothing goes wrong |
| `DaemonRuns.OthersDoNotAnswer` | quoodle-agent-linux/privileged/src/uds_server.c:363-432 | so is one with an id of 1 to 127 characters after any run of requests with other such ids |
| `DaemonRuns.LongIdsAnswer` | quoodle-agent-linux/privileged/src/uds_server.c:363-432 | of two longer ids with the same first 127 characters the second gets the reply of the first |
| `DaemonRuns.FirstNumber` | quoodle-agent-linux/privileged/src/state_store.c:76-104 | with no sequence file a request is executed exactly if its number is above zero |
| `DaemonRuns.UnreadableRefused` | quoodle-agent-linux/privileged/src/uds_server.c:427-441 | an unreadable or empty reply file, or an unreadable sequence file, keeps a request from being executed |
| `DaemonRuns.SequenceSafety` | quoodle-agent-linux/privileged/src/uds_server.c:437-509 | in any run the persisted number never decreases, and an execution whose number is not below a later one ended before its own number was saved |
| `DaemonRuns.ExecutionsExceed` | quoodle-agent-linux/privileged/src/uds_server.c:437-446 | whatever is executed has a number above the persisted one and no reply on disk |
| `DaemonRuns.RetryExecutes` | quoodle-agent-linux/privileged/src/uds_server.c:448-503 | the same request sent again is executed again exactly if the first reply did not reach the disk |
| `PythonDaemon.StateStore.Load` | quoodle-agent-linux/privileged_daemon.py:155-163 | the file, or an empty state if it cannot be read |
| `PythonDaemon.StateStore.PurgeIdempotency` | quoodle-agent-linux/privileged_daemon.py:172-179 | keeps exactly the entries within the window |
| `PythonDaemon.StateStore.CacheResponse` | quoodle-agent-linux/privileged_daemon.py:187-194 | inserts the entry, purges and saves |
| `PythonDaemon.StateStore.UpdateSeq` | quoodle-agent-linux/privileged_daemon.py:204-210 | takes a number exactly if it is above the last of its key |
| `PythonDaemon.Daemon.HandleConnection` | quoodle-agent-linux/privileged_daemon.py:1549-1603 | performs exactly the plan of the connection: lookup, checks, claim, execution, caching, reply |
| `PythonDaemon.Daemon.RestartProcess` | quoodle-agent-linux/privileged_daemon.py:155-163 | a restart keeps what is in the file, or nothing if it cannot be read |
| `PythonRuns.AtMostOnce` | quoodle-agent-linux/privileged_daemon.py:204-210 | in any run with crashes and exceptions anywhere the numbers executed under one key strictly increase, between resets and restarts that could not read the file |
| `PythonReplies.SameReply` | quoodle-agent-linux/privileged_daemon.py:181-194 | every reply to an id is the response first cached for it, until a purge ran with the entry outside its window, a reset, or a restart that could not read the file or came before any save |
| `PythonReplies.ExecutedOnce` | quoodle-agent-linux/privileged_daemon.py:172-194 | an id is executed twice only if the first connection was cut short before its response was cached, or that response was over: purged outside its window, reset, or lost by a restart that could not read the file or came before any save; for any clock |
| `PythonReplies.RepeatExecutes` | quoodle-agent-linux/privileged_daemon.py:181-274 | after an execution a well-formed repeat of the id under a new number is executed again exactly if the response could not be signed or was outside the window as it was inserted |
| `PythonReplies.RestartExecutes` | quoodle-agent-linux/privileged_daemon.py:155-210 | after an execution and a restart the same key and number is executed again, under an id that is not cached, exactly if the state file could not be read |
| `PythonReplies.ResetForgets` | quoodle-agent-linux/privileged_daemon.py:1283-1287 | after a reset no number is left and no response but its own; after a readable restart this is so exactly if the reset or the caching of its response was saved |
| `PythonReplies.ResetExecutes` | quoodle-agent-linux/privileged_daemon.py:1283-1287 | after a reset a request under another id is executed exactly if its number is above zero |
| `PythonReplies.RefusedAnswered` | quoodle-agent-linux/privileged_daemon.py:1557-1580 | a late, unsigned or replayed request is answered with the error of the first check it fails, changes no number and executes nothing |
| `PythonReplies.ExecutedAnswered` | quoodle-agent-linux/privileged_daemon.py:1585-1603 | an executed request is answered with its response exactly if that is signed, saved and audited |
| `Composition.FreshNeverReplayed` | quoodle-agent-linux/privileged/src/uds_server.c:442-446 | as long as every write of the agent succeeds and its state file is readable at every restart, no request that passes the checks and arrives in order is refused as a replay, whatever fails or restarts in the daemon |
| `Composition.ReplayIff` | quoodle-agent-linux/privileged/src/uds_server.c:442-446 | a checked request with no reply on disk is refused as a replay exactly if its number is not above the persisted one |
| `Composition.CheckedIff` | quoodle-agent-linux/privileged/src/uds_server.c:351-425 | a request the agent signs, of NUL-free strings and integers within 2^53, passes the daemon's checks exactly if its time stamp parses and its numbers and nesting can be signed |
| `Composition.FreshRequestServed` | quoodle-agent-linux/agent/src/privileged_client.cpp:297-365 | a request built, stamped, numbered and signed by the agent with a new id is executed once and answered with the executor's answer, after any earlier failures in the daemon |
| `Timestamps.AgentStampParses` | quoodle-agent-linux/agent/src/privileged_client.cpp:57-65 | every stamp the agent writes with `strftime` is read by the daemon's `strptime` as the time it stands for |
| `Timestamps.StampRead` | quoodle-agent-linux/privileged/src/uds_server.c:171-179 | a text of that form is accepted, as its time, exactly if every field is in range and nothing follows |
| `Timestamps.LooseFields` | quoodle-agent-linux/privileged/src/uds_server.c:171-179 | blanks before a number and a missing leading zero are accepted |
| `Bits.PlusWraps` | quoodle-agent-linux/agent/src/wss_client.cpp:249-261 | word addition is addition modulo 2^32 |
| `Bits.RotateByShifts` | quoodle-agent-linux/agent/src/wss_client.cpp:222-252 | the two-shift form is a rotation |
| `Bits.NumberSnoc` | quoodle-agent-linux/agent/src/privileged_client.cpp:93-134 | in a length field the first byte counts most |
| `Sha1.ZeroBytesSmallest` | quoodle-agent-linux/agent/src/wss_client.cpp:205-208 | the padding is the smallest that fits (section 5.1.1 of FIPS 180-4) |
| `Sha1.RoundConstants` | quoodle-agent-linux/agent/src/wss_client.cpp:236-248 | the round constants are the integer parts of 2^30 times the square roots of 2, 3, 5 and 10 |
| `Sha1.InitialPattern` | quoodle-agent-linux/agent/src/wss_client.cpp:197-201 | the initial hash value counts up and down in nibbles |
| `Sha1.LengthField` | quoodle-agent-linux/agent/src/wss_client.cpp:204-211 | the last 64 bits are the length in bits, for messages under 2^61 bytes |
| `Sha1.ChOr` | quoodle-agent-linux/agent/src/wss_client.cpp:236-238 | the OR form of Ch equals the XOR form of the standard |
| `Sha1.MajOr` | quoodle-agent-linux/agent/src/wss_client.cpp:242-244 | the OR form of Maj equals the XOR form of the standard |
| `Sha1.Pad` | quoodle-agent-linux/agent/src/wss_client.cpp:203-211 | pads as the standard defines |
| `Sha1.Schedule` | quoodle-agent-linux/agent/src/wss_client.cpp:214-225 | fills the array with the message schedule |
| `Sha1.Compress` | quoodle-agent-linux/agent/src/wss_client.cpp:227-255 | runs the eighty rounds |
| `Sha1.Sha1DigestHex` | quoodle-agent-linux/agent/src/wss_client.cpp:196-273 | is SHA-1 for every message |
| `WsFrame.SendWsFrame` | quoodle-agent-linux/agent/src/wss_client.cpp:329-364 | appends the masked frame of the payload to the stream |
| `WsFrame.ReadWsFrame` | quoodle-agent-linux/agent/src/wss_client.cpp:366-412 | returns what the stream parses to and leaves the rest; refuses only a stream that parses to nothing or a failing call |
| `WsFrame.ParseFrame` | quoodle-agent-linux/agent/src/wss_client.cpp:329-412 | a sent frame parses to its payload and opcode and leaves the bytes behind it, for every mask, exactly for payloads up to 1 MiB |
| `WsFrame.FrameLayout` | quoodle-agent-linux/agent/src/wss_client.cpp:329-364 | the bytes of a frame are those of section 5.2 of RFC 6455: final frame, mask bit, the three length forms, mask key, masked payload |
| `WsFrame.RoundTrip` | quoodle-agent-linux/agent/src/wss_client.cpp:329-412 | any sequence of frames sent comes back as its payloads and opcodes, with what stood behind it left over, for every schedule of short transfers |
| `WsFrame.SmallOpcode` | quoodle-agent-linux/agent/src/wss_client.cpp:332-332 | an opcode below 16 comes back as itself |
| `WsFrame.ShortestForm` | quoodle-agent-linux/agent/src/wss_client.cpp:337-351 | no masked frame the reader accepts carries the same payload in fewer bytes |
| `WsFrame.MaskedTwice` | quoodle-agent-linux/agent/src/wss_client.cpp:354-357 | masking twice is the identity |
| `Streams.Stream.ReadExact` | quoodle-agent-linux/agent/src/wss_client.cpp:156-166 | reads exactly the wanted bytes however short the reads, or fails |
| `Streams.Stream.WriteExact` | quoodle-agent-linux/agent/src/wss_client.cpp:168-178 | writes everything however short the writes, or fails |
| `Streams.Stream.ReadFull` | quoodle-agent-linux/privileged/src/uds_server.c:73-89 | reads exactly the wanted bytes through short reads and interruptions; fails only on a short stream or a failing call |
| `Streams.Stream.WriteFull` | quoodle-agent-linux/privileged/src/uds_server.c:91-104 | writes everything through short writes and interruptions; fails only on a failing call |
| `SocketFrame.SendFrame` | quoodle-agent-linux/privileged/src/uds_server.c:106-116 | writes the frame of the C string |
| `SocketFrame.ReadFrame` | quoodle-agent-linux/privileged/src/uds_server.c:118-139 | returns what the stream parses to and leaves the rest; refuses only what parses to nothing, or on a failing call |
| `SocketFrame.WriteFrame` | quoodle-agent-linux/agent/src/privileged_client.cpp:125-134 | writes the frame of the payload |
| `SocketFrame.ParseFrame` | quoodle-agent-linux/agent/src/privileged_client.cpp:93-134 | a frame parses to its payload and leaves what follows exactly for payloads of 1 byte to 1 MiB |
| `Sequences.CString` | quoodle-agent-linux/privileged/src/uds_server.c:106-116 | a C string is what stands before the first zero |
| `SocketFrame.RoundTrip` | quoodle-agent-linux/agent/src/privileged_client.cpp:75-134 | any sequence of payloads of 1 byte to 1 MiB comes back as written, in both directions, for every schedule of short transfers and interruptions |
| `DirWalk.WithinBelow` | quoodle-agent-linux/privileged/src/executor.c:474-563 | what lies in a directory within the root is within it, under the directory's own relative path |
| `DirWalk.Listing.AddListEntries` | quoodle-agent-linux/privileged/src/executor.c:704-765 | adds the beginning of the depth-first listing, as far as the limit and any stop allow, and fails exactly when stopped |
| `DirWalk.Listing.SearchFileNames` | quoodle-agent-linux/privileged/src/executor.c:767-835 | the same for the matches of a search |
| `DirWalk.TakenIsFirst` | quoodle-agent-linux/privileged/src/executor.c:704-835 | with nothing to stop it, a walk reports the first `limit` entries |
| `DirWalk.StopsAtFailure` | quoodle-agent-linux/privileged/src/executor.c:704-835 | a walk meets something that ends it exactly if, on its way, a name is too long or a directory cannot be opened; what cannot be examined is passed over |
| `DirWalk.ListItems` | quoodle-agent-linux/privileged/src/executor.c:704-765 | without failures the listing is the tree in depth-first order |
| `DirWalk.SearchItems` | quoodle-agent-linux/privileged/src/executor.c:767-835 | without failures the search is the tree in depth-first order, filtered by name |
| `DirWalk.ListFiles` | quoodle-agent-linux/privileged/src/executor.c:704-765 | on a clean tree: the first `limit` entries in depth-first order, all counted, no error |
| `DirWalk.SearchFiles` | quoodle-agent-linux/privileged/src/executor.c:767-835 | on a clean tree: the first `limit` matches in depth-first order, all counted, no error |

## Left out

- Ed25519, base64, TLS and the JSON parsers: foreign code; trees, and a pair of sign and verify functions, stand for them. `Read` only says what a canonical text means.
- The JSON body `FlushOutbox` builds from an item: a message stands for its item and its number.
- Test vectors of SHA-1: the digest is compared with the definition of FIPS 180-4, not with sample values.
- The capabilities behind the executor: operating-system effects; one abstract step.
- `ProcessInbound`, authentication and heartbeats: they route a message or test one field and keep no state of their own.
- Jcs.RenderNumber: does not model a value whose integer does not fit `long long`, because the C conversion is undefined there; it prints the integer.
- Timestamps.AgentStampParses: years of four digits; `strptime` is taken as glibc reads digits and leading spaces.
- HTTP upgrade: string search on network input.
- Windows agent, gateway, control plane, kernel guard and user interfaces: not part of this model.
- Allocation failure and overflow of `size_t`: not modelled anywhere.
- `qsort` with `compare_keys`: taken as a stable insertion sort; it is only observable for duplicate keys, which the canonical-form theorems exclude.
- Key order against section 3.2.3 of RFC 8785: byte order as in the code; it differs for keys with supplementary characters.
- Floats: carried as the literal a printer chose; the agent refuses them, and the shortest-digits algorithm is not modelled.
- Integers beyond 2^53 and numbers that are not integers on their way through cJSON: only the render step is stated for them.
- The daemon's response on its way back to the agent: signed and printed like a request, but its number formats from 10^15 on are not modelled.
- The JSON encoding of the agent's state and outbox files: a file holds the value that was written.
- Messages with an empty id in an outbox file written by another program: a flush gives those a new id on every attempt.
- A policy hash that an agent's configuration file supplies: the store keeps it but no theorem is about it.
- `(long)` of a sequence number beyond 2^53: the composed theorems take the number to arrive as it was sent.
- The daemon's reading of a message while its sender still writes: the stream is written, then read, which for a first-in first-out stream makes no difference.
- Python's `append_audit`, `find_response_by_command_id` and flags: they do not touch numbers or cached replies, except that any of them may save the state.
- Regular expressions in a file search: `matches` is any test on the name.
