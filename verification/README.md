# go-redis-stream: the stream client, modelled in Dafny

go-redis-stream is a small order-event pipeline on Redis Streams. Its core is
the `RedisStream` client in `internal/stream/stream.go`, with two operations:

- `Produce` encodes an order and appends one entry `{"data": payload}` to the
  primary stream.
- `Consume` creates the consumer group at offset "0" if it is absent, then
  loops forever. Each iteration does a blocking ">" read. For every message
  it calls the handler up to three times, stopping at the first success. It
  then acknowledges the message; if every attempt failed, it first copies the
  raw payload to `<stream>-dlq`.

The model has four modules:

- `Wrappers`: `Option`.
- `OrderCodec`: the `Order` value and a stand-in for its JSON encoding, with
  the round trip `Decode(Encode(o)) == Some(o)` proved.
- `LogStore`: an abstract, in-memory log store in place of Redis. Its state
  is a `Snapshot` value: streams of `(id, fields)` entries, and per
  (stream, group) a cursor and a pending map. XADD, XGROUP CREATE … MKSTREAM,
  XREADGROUP ">" and XACK are pure functions on snapshots. The `Store` class
  keeps the current snapshot in fields, and its methods are proved to change
  those fields exactly as the functions say.
- `Stream`: the specification of the client as functions on snapshots.
  - `Handled` covers one message, `HandledAll` one batch, `ConsumeStep` one
    loop iteration and `Rounds` a bounded number of iterations.
  - `AttemptTrace`, `BatchTrace`, `StepTrace` and `RoundsTrace` list the
    handler calls those steps make.
  - Lemmas state what the source promises about these functions.
  - The `RedisStream` class holds a `Store` and the stream and group names.
    Its methods (`Produce`, `Bootstrap`, `ProcessMessage` with the retry
    loop, `ProcessBatch`, `ConsumeOnce`, `Consume`) are proved to change the
    store and to call the handler exactly as the specification functions say.

`StreamScenarios` follows the repository's integration test
(`internal/stream/stream_test.go`):

- `SuccessPath` produces an order into a fresh store, then runs one consumer
  iteration with a succeeding handler. The handler is called once, with the
  produced order; nothing stays pending; the dead-letter stream is empty.
- `FailurePath` runs the same steps with a failing handler. The handler is
  called three times, and the dead-letter stream holds the encoded order.

Modelling choices:

- **Handler.** The handler is a `Delivery -> bool` value, true when it
  returns nil. A `Delivery` carries the message id, the decoded order and the
  attempt number. The id and the attempt stand for whatever hidden state a
  real handler consults, so every outcome pattern over the three attempts
  can be expressed.
- **Transport failures.** A transport failure is a `Fault`, with three
  values:
  - `NoFault`: the call succeeds.
  - `Unsent`: the call fails before the store applies it.
  - `ReplyLost`: the store applies the call and the reply is lost (a timeout
    on the reply, a cancelled context).

  `Produce` returns the error in both failing cases; after `ReplyLost` the
  entry has been appended all the same. `Consume` takes one fault for the
  bootstrap and one per iteration's read. A failing read processes nothing
  and the loop goes on; after `ReplyLost` the store has nevertheless
  delivered the batch to the group.
- **Entry ids.** They come from one store-wide counter starting at 1, so the
  group offset "0" lies before every entry. No group's cursor ever passes
  the counter (`CursorsBehind`), so whatever is produced later is new to
  every group.

Proved consequences of the code as written:

- **Decode failures are not handler failures.** The code ignores the
  `json.Unmarshal` error (`internal/stream/stream.go:70`). The handler
  receives a zero-valued order, and its own result decides the outcome
  (`MalformedPayloadIsNotFailure`).
- **A failed bootstrap starves the consumer.** Every error of the group
  creation is discarded (`internal/stream/stream.go:50`), transport
  failures included. When the group did not exist before, every later read
  is answered NOGROUP and skipped (`internal/stream/stream.go:61-64`), so
  the handler is never called (`FailedBootstrapStarves`).
- **A lost read reply strands its batch.** When the reply of a read that
  delivered is lost, the group has already marked the batch pending and
  moved its cursor past it. The loop reads only with ">"
  (`internal/stream/stream.go:57`), which skips pending entries. So those
  messages stay pending for good and are never handled
  (`LostReplyStrands`, `StrandedNeverHandled`).

## Model

| member | source | states |
|---|---|---|
| OrderCodec.Encode | internal/stream/stream.go:40 | the payload `json.Marshal` produces for an order; its meaning is stated by `DecodeEncode` |
| OrderCodec.Unmarshal | internal/stream/stream.go:68-70 | the order `json.Unmarshal` leaves in a fresh variable: the decoded order, or the zero order when decoding fails; its meaning is stated by `UnmarshalEncode` and `MalformedPayloadIsNotFailure` |
| OrderCodec.DecodeEncode | internal/stream/stream.go:40 | the payload written for an order decodes back to that same order |
| OrderCodec.UnmarshalEncode | internal/stream/stream.go:68-70 | the order the consumer obtains from a produced payload is the produced order |
| LogStore.Append | internal/stream/stream.go:41-44 | XADD gives a fresh id one past the last, appends exactly one entry to the named stream, and leaves other streams and all groups unchanged |
| LogStore.AppendWellFormed | internal/stream/stream.go:41-44 | appending keeps every stream's ids positive, bounded by the last id and strictly increasing |
| LogStore.CreateGroup | internal/stream/stream.go:50 | XGROUP CREATE … 0 MKSTREAM as a function on store states; its meaning is stated by `CreateGroupIdempotent` and `CreateGroupDeliversBacklog` |
| LogStore.CreateGroupIdempotent | internal/stream/stream.go:50 | create-if-absent: an absent group is added at offset "0" with nothing pending and no other group or the id counter changes; an existing group and every stream's entries are left untouched; a second create changes nothing and answers BUSYGROUP |
| LogStore.CreateGroupDeliversBacklog | internal/stream/stream_test.go:34-42 | a group created at offset "0" after entries were appended delivers all of them |
| LogStore.ReadGroupReply | internal/stream/stream.go:54-59 | what a ">" read answers: NOGROUP for a missing group, the nil reply when nothing is new, else the new entries; its meaning is stated by `ReadGroupDelivers` |
| LogStore.ReadGroup | internal/stream/stream.go:54-59 | the store after a ">" read; its meaning is stated by `ReadGroupMarksPending` and `ReadGroupDrains` |
| LogStore.ReadGroupDelivers | internal/stream/stream.go:54-59 | a ">" read on an existing group either times out or returns exactly the entries past the cursor, in stream order, as a non-empty suffix of the stream; it times out only when no entry lies past the cursor |
| LogStore.ReadGroupMarksPending | internal/stream/stream.go:54-59 | a timed-out read changes nothing; a read that delivers advances the cursor to the last delivered id, and the pending ids become exactly the old ones plus the batch's, each delivered id recorded for the reader; other groups are kept |
| LogStore.BatchWithinCursor | internal/stream/stream.go:54-59 | every delivered id lies past the old cursor and no later than the new one |
| LogStore.ReadGroupDrains | internal/stream/stream.go:54-59 | right after a read, a second ">" read returns nothing: no entry is delivered twice |
| LogStore.CreatedAfterAppend | internal/stream/stream_test.go:34-38 | an entry produced before the group exists is the last of the entries the group, created afterwards at offset "0", delivers on its first read |
| LogStore.AppendReachesGroup | internal/stream/stream.go:41-59 | an entry appended to a stream whose group is running joins the end of that group's next ">" read, after whatever it had not yet read |
| LogStore.CursorsBehindKept | internal/stream/stream.go:41-82 | XADD, XGROUP CREATE, XREADGROUP and XACK all keep every group's cursor at or behind the last id handed out |
| LogStore.Ack | internal/stream/stream.go:82 | XACK as a function on store states; its meaning is stated by `AckEffect` |
| LogStore.AckEffect | internal/stream/stream.go:82 | XACK leaves the pending ids exactly the old ones minus the given id, keeps the other pending records, the cursor, the streams and the other groups, and is idempotent |
| LogStore.Store.XAdd | internal/stream/stream.go:41-44 | the store's new state is `Append` of the old; the returned id is that of the appended entry |
| LogStore.Store.XGroupCreateMkStream | internal/stream/stream.go:50 | the new state is `CreateGroup` of the old; the reply is BUSYGROUP exactly when the group existed |
| LogStore.Store.XReadGroup | internal/stream/stream.go:54-59 | the reply is `ReadGroupReply` of the old state and the new state is `ReadGroup` of it |
| LogStore.Store.XAck | internal/stream/stream.go:82 | the new state is `Ack` of the old; the count is 1 exactly when the id was pending |
| Stream.DeadLetterStream | internal/stream/stream.go:86 | the dead-letter stream's name always differs from the primary stream's |
| Stream.Attempts | internal/stream/stream.go:72-79 | the number of handler calls the retry loop makes; its meaning is stated by `AttemptCount` and `AttemptsAtFirstSuccess` |
| Stream.Succeeds | internal/stream/stream.go:72-79 | the loop's `success` flag: some attempt among the three succeeds |
| Stream.AttemptTrace | internal/stream/stream.go:72-79 | the handler calls of the retry loop, in order |
| Stream.AttemptCount | internal/stream/stream.go:72-79 | the handler runs at least once and at most 3 times; every call but the last fails; the last succeeds exactly when some attempt does; when all fail it runs exactly 3 times |
| Stream.AttemptsAtFirstSuccess | internal/stream/stream.go:72-79 | the handler runs exactly (index of first success + 1) times, with attempts 0, 1, … in order |
| Stream.AttemptsAllFail | internal/stream/stream.go:72-79 | when no attempt succeeds the handler is called for attempts 0, 1 and 2, in that order |
| Stream.Handled | internal/stream/stream.go:81-89 | the store after one message: ack, or dead-letter then ack; its meaning is stated by `HandledEffect` |
| Stream.HandledEffect | internal/stream/stream.go:81-89 | per message: on success only the ack happens and the dead-letter stream is unchanged; on exhaustion the raw payload is appended unchanged to the dead-letter stream; either way the groups become exactly what XACK of the message makes of them (`AckEffect`: only that id leaves the pending map, the cursor and other pending ids are kept), and the primary stream is untouched |
| Stream.MalformedPayloadIsNotFailure | internal/stream/stream.go:68-82 | a payload that does not decode reaches the handler as the zero order, and when the handler accepts it the message is acknowledged after one call, with nothing dead-lettered |
| Stream.HandledAll | internal/stream/stream.go:66-92 | the store after a batch, message by message in delivery order; its meaning is stated by `HandledAllStreams` and `HandledAllGroups` |
| Stream.HandledAllStreams | internal/stream/stream.go:66-92 | a batch leaves the primary and all other streams unchanged and grows the dead-letter stream by exactly its dead letters, in delivery order |
| Stream.HandledAllGroups | internal/stream/stream.go:66-92 | after a batch none of its ids is pending, whatever the handler returned; other pending ids and other groups are kept |
| Stream.NoDeadLettersOnSuccess | internal/stream/stream.go:81-82 | a batch whose messages all succeed writes no dead letter |
| Stream.AllDeadLetteredOnFailure | internal/stream/stream.go:83-89 | when the handler always fails, every message's raw payload is dead-lettered, in order, after 3 calls each |
| Stream.NewEntriesHaveData | internal/stream/stream.go:68 | when every entry of the stream has a "data" field, so does every entry a read returns, so the type assertion holds |
| Stream.ConsumeStep | internal/stream/stream.go:53-92 | the store after one iteration, for each read outcome; its meaning is stated by the `ConsumeStep…` lemmas and `LostReplyStrands` |
| Stream.ConsumeStepKeepsStream | internal/stream/stream.go:66-92 | the consumer never writes to the stream it reads |
| Stream.ConsumeStepAcksBatch | internal/stream/stream.go:66-92 | after an iteration that read a batch, the pending map is the old one minus the batch's ids, and the cursor is at the last delivered id |
| Stream.ConsumeStepDrains | internal/stream/stream.go:54-92 | after an iteration that read a batch, the next read returns nothing until something new is appended |
| Stream.ConsumeStepKeepsNothingPending | internal/stream/stream.go:52-92 | a group with nothing pending still has nothing pending after an iteration whose read was not applied or whose reply arrived; when the reply of a delivering read is lost, exactly that batch is left pending |
| Stream.ConsumeStepDeadLetters | internal/stream/stream.go:83-89 | an iteration keeps the store well formed, writes only to the dead-letter stream, and grows it by exactly the batch's dead letters |
| Stream.Rounds | internal/stream/stream.go:52-93 | any number of iterations leaves the consumed stream unchanged |
| Stream.RoundsIdle | internal/stream/stream.go:52-64 | with nothing new to read, iterations change nothing and call no handler, whichever of them fail |
| Stream.NoRedelivery | internal/stream/stream.go:52-93 | after one iteration whose read succeeds, later iterations call the handler no more unless something new is produced |
| Stream.Bootstrapped | internal/stream/stream.go:50 | the group creation with its errors ignored: the group is created unless the request never reached the store, a newly created group starts at offset "0" with nothing pending, and no stream's entries change |
| Stream.FailedBootstrapStarves | internal/stream/stream.go:50-64 | when the group did not exist and its creation failed, every iteration is a NOGROUP skip: the store never changes and the handler is never called |
| Stream.BatchTraceMessages | internal/stream/stream.go:66-79 | every handler call for a batch concerns one of the batch's messages |
| Stream.StepKeepsStranded | internal/stream/stream.go:54-92 | a message pending at or behind the cursor stays pending through any iteration, and no handler call of that iteration concerns it |
| Stream.StrandedNeverHandled | internal/stream/stream.go:52-93 | such a message stays pending through any number of iterations, whatever their faults, and is never given to the handler |
| Stream.LostReplyStrands | internal/stream/stream.go:54-64 | when a delivering read's reply is lost, no handler is called and every delivered id is left pending at or behind the cursor |
| Stream.HandledAllCursorsBehind | internal/stream/stream.go:66-92 | processing a batch only acknowledges and dead-letters, so no cursor moves past the last id |
| Stream.StepKeepsCursorsBehind | internal/stream/stream.go:53-92 | one iteration, whatever its fault, keeps the store well formed, the group in place and every cursor behind the last id |
| Stream.RoundsKeepCursorsBehind | internal/stream/stream.go:52-93 | the same through any number of iterations |
| Stream.ProduceKeepsData | internal/stream/stream.go:40-46 | what Produce appends keeps every entry of the stream carrying a "data" field, the consumer's precondition |
| Stream.ProducedOrderReachesHandler | internal/stream/stream_test.go:31-42 | an order produced before the group exists is delivered by the first read after bootstrap, and the handler's first attempt for it (attempt 0) receives that same order; with an older backlog, calls for older entries come first |
| Stream.ProducedWhileRunning | internal/stream/stream.go:36-79 | an order produced while the group runs is delivered by the next read, behind what the group had not yet read, and reaches the handler's first attempt unchanged; for a consumer that had caught up the handler calls are exactly that order's retry calls |
| Stream.RunningConsumerReceives | internal/stream/stream.go:36-93 | a consumer that bootstrapped (or whose group already existed) and ran any number of iterations, whatever their faults, hands an order produced afterwards to the handler at the next iteration if that iteration's read succeeds; if that read's reply is lost instead, the order is left pending at or behind the cursor, so `StrandedNeverHandled` applies and it is never handed over |
| Stream.ProducedAndBootstrapped | internal/stream/stream_test.go:31-38 | the test's starting store: the stream holds exactly the produced entry, the new group is at offset "0" with nothing pending, and there is no dead letter |
| Stream.FreshStoreTrace | internal/stream/stream_test.go:38-42 | in that store one iteration calls the handler exactly as the retry rule says, with the produced order |
| Stream.FreshStoreSucceeds | internal/stream/stream_test.go:38-42 | in that store a handler that accepts at once is called exactly once, with the produced order |
| Stream.FreshStoreAcked | internal/stream/stream_test.go:38-42 | in that store one iteration leaves nothing pending |
| Stream.FreshStoreDeadLetters | internal/stream/stream_test.go:38-42 | in that store one iteration dead-letters the encoded order exactly when every attempt fails |
| Stream.RedisStream.Produce | internal/stream/stream.go:36-47 | on any transport failure the error is returned; if the request never reached the store nothing changes, otherwise (also when the reply is lost) exactly one `{"data": encoded order}` entry is appended to the stream, with other streams unchanged |
| Stream.RedisStream.Bootstrap | internal/stream/stream.go:50 | the new state is `Bootstrapped` of the old: every error is ignored, and the group exists afterwards unless the request never reached the store |
| Stream.RedisStream.ProcessMessage | internal/stream/stream.go:67-90 | the retry loop's `success` is `Succeeds`, its handler calls are `AttemptTrace`, and the store's new state is `Handled` of the old |
| Stream.RedisStream.ProcessBatch | internal/stream/stream.go:66-92 | the messages are processed in order: the new state is `HandledAll` and the calls are `BatchTrace` |
| Stream.RedisStream.ConsumeOnce | internal/stream/stream.go:53-92 | one iteration: the reply is the read's, or a transport error; the new state and the handler calls are `ConsumeStep` and `StepTrace` |
| Stream.RedisStream.Consume | internal/stream/stream.go:49-94 | bootstrap with its fault, then one iteration per entry of `faults`: the new state and the handler calls are `Rounds` and `RoundsTrace` from the bootstrapped store |
| StreamScenarios.SuccessPath | internal/stream/stream_test.go:31-42 | the test run on a fresh store: Produce returns no error, the accepting handler is called exactly once with the produced order (so its `ID` check holds), nothing stays pending and no dead letter is written |
| StreamScenarios.FailurePath | internal/stream/stream.go:72-89 | the same run with a handler that always fails: Produce returns no error, the handler is called for attempts 0, 1 and 2 with the produced order, nothing stays pending, and the dead-letter stream holds exactly the encoded order, which decodes back to it |

## Left out

- The Redis client, its connection and `NewRedisStream` (`internal/stream/stream.go:22-34`): replaced by the abstract `Store`.
- Tracing spans and `log.Printf` (`internal/stream/stream.go:37-38, 53, 60, 62, 84`): observability only, with no effect on state.
- `time.Sleep` between attempts and the 5-second block (`internal/stream/stream.go:58, 78`): timing is not modelled; a read that times out is the `NoData` reply.
- Stream.RedisStream.Consume: the loop at `internal/stream/stream.go:52` never ends; the model runs one iteration per entry of a finite `faults` sequence, and `NoRedelivery`, `RoundsIdle` and `StrandedNeverHandled` describe what any further iterations do.
- OrderCodec.Encode: `encoding/json` is not reproduced. A JSON-shaped encoding that escapes only `"` and `\` stands in for it. The `json.Marshal` error is ignored, as in the source.
- OrderCodec.Unmarshal: `Decode` accepts exactly the text `Encode` writes, so any other payload reaches the handler as the zero order, whatever `json.Unmarshal` would make of it. That includes valid JSON with the fields in another order or some fields missing, which Go decodes in full or in part.
- OrderCodec.DecodeEncode: strings are sequences of characters, so invalid UTF-8 cannot occur. Go's `json.Marshal` replaces it with U+FFFD, and for such strings its round trip does not give the order back.
- The `Order` type (`internal/order`) is not part of this model; its fields `ID`, `Item` and `Amount` are taken from the test's literal.
- Transport failures of the consumer's XACK and dead-letter XADD: the source ignores their results (`internal/stream/stream.go:82, 85-89`), and the model treats them as always succeeding.
- Concurrent consumers, claiming and redelivery of pending entries to other consumers: the consumer name is recorded in the pending map but used for nothing else.
- `cmd/producer/main.go`, `cmd/consumer/main.go`, `config/config.go` and `internal/order/handler.go`: entry points, environment lookup and a demo handler; the handler is a parameter here.
- The test's goroutine and channel harness (`internal/stream/stream_test.go:37-48`): the scenarios run the consumer for one iteration instead.
