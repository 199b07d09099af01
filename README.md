# docdb-replicator in Dafny

A model of the replication core of docdb-replicator: the AWS Lambda handler
`lambda_handler` in `app/lambda_function.py`. Each invocation does the following:

- reads the resume token stored in a state collection;
- opens a change stream on the watched DocumentDB collection, resuming after that token;
- polls the stream at most MAX_LOOP times;
- turns each change event into a payload;
- fans the payload out to the enabled sinks: Elasticsearch, an S3 micro-batch
  file, a Kinesis stream, an MSK topic and an SNS topic, in that order;
- checkpoints the token inside the loop, when no batch file is kept;
- at the end, uploads the batch file and commits the stream's resume token,
  or stores a null token when the stream's history was lost.

The project has two layers:

- A functional one: `Replication.Invoke` gives one invocation's outcome and
  world as a function of the world it starts in.
  - The world is the state collection, one trace per sink, the open batch
    file and the uploaded batch files.
  - An invocation also depends on a `Feed`: what each `try_next` returns.
  - It depends on a `Faults` value: which reads, deliveries, stores and
    uploads raise.
- An imperative one: the class `Handler.Replicator` holds those in mutable
  fields. Its methods mirror the source's helpers and the handler's blocks.
  `Handle` is proved to leave exactly the outcome and world that `Invoke`
  describes.

The properties are proved as lemmas about the functional layer.

Modules:

| module | what it holds |
|---|---|
| `Wrappers` | `Option` and `Result` |
| `Bson` | field values |
| `Settings` | environment, sinks, errors |
| `ChangeEvents` | event normalisation |
| `StateStore` | `get_last_processed_id` / `store_last_processed_id` |
| `Sinks` | the world and the fan-out |
| `Replication` | the loop, the except and else clauses, and the invocation |
| `Handler` | the imperative class |

Details of the code that the model follows:

- Any sink failure aborts the invocation. The code has no per-sink isolation:
  every publish helper re-raises, and the handler's `except Exception`
  re-raises too.
- Once events_processed reaches STATE_SYNC_COUNT, the checkpoint is stored
  after every later event, not after every N events. The test is `>=` on a
  counter that is never reset.
- The `timestamp` field is a string, the decimal text of the cluster time.
  The event id key is `_id`.
- The read finds the current record with `find_one({'currentState': True})`.
  The store updates the first record for (db, coll) with `update_one`. The
  two can address different records. The predicate `StateStore.Coherent`
  names the case where they agree.
- OperationFailure 136 is re-raised after the null token is stored.
- Exceptions raised in the `else` clause are not caught by the `except`
  clauses, so they never trigger the reset. Those are failures of the S3
  upload and of the final store.
- `get_last_processed_id` raises KeyError on a current record without
  `lastProcessed`, the very record its bootstrap inserts. `Replication.Invoke`
  and `Handler` read such a record as null, the corrected behaviour, and
  `Replication.InvokeAsWritten` is the handler as written (see Findings).

## Model

| member | source | states |
|---|---|---|
| Bson.NatString | app/lambda_function.py:343 | str() of the cluster time is non-empty decimal digits without a leading zero (only 0 starts with '0'), and one digit exactly below 10 |
| Bson.NatStringRoundTrip | app/lambda_function.py:343 | the timestamp text determines the cluster time: reading the digits back gives it |
| Bson.IntString | app/lambda_function.py:341 | str() of an int is its decimal digits, after a minus sign exactly when it is negative, and reading them back gives the number |
| Bson.PyStr | app/lambda_function.py:341 | str() of a string is the string, of None "None", of a bool "True"/"False", and of an int its decimal text |
| ChangeEvents.Stamp | app/lambda_function.py:343 | the merged fields are exactly operation, timestamp and timestampReadable |
| ChangeEvents.DocId | app/lambda_function.py:341 | the id is "None" when the document has no `_id`, and the id itself when it is a string |
| ChangeEvents.Body | app/lambda_function.py:340-343 | the index body has the document's keys but `_id`, plus the three stamp fields |
| ChangeEvents.WithId | app/lambda_function.py:344-345 | `{'_id': id}` updated with the fields has the fields' keys plus `_id`, which is the id unless the fields carry their own |
| ChangeEvents.Normalize | app/lambda_function.py:337-374 | an event raises exactly when it is malformed: AttributeError for an insert/update with a null document, KeyError for a delete without `_id`; every other operation type is neither delivered nor an error; upserts come only from insert/update and removals only from delete |
| ChangeEvents.UpsertShape | app/lambda_function.py:339-345 | an insert/update payload has the document's keys plus `_id` and the three stamp fields; `_id` is str() of the popped id; stamp fields override same-named document fields; other fields are carried unchanged; the index body is the payload without `_id` |
| ChangeEvents.BodyShape | app/lambda_function.py:340-343 | the index body drops `_id`, keeps every other field and adds the stamps over them |
| ChangeEvents.WithIdShape | app/lambda_function.py:344-345 | `{'_id': id}` updated with fields lacking `_id` has exactly one more key, and removing `_id` gives the fields back |
| ChangeEvents.RemovalShape | app/lambda_function.py:370-374 | a delete payload has exactly the keys `_id`, operation, timestamp and timestampReadable, with `_id` the str() of the document key's id |
| ChangeEvents.UpsertRoundTrip | app/lambda_function.py:339-345 | normalisation loses only the stamp fields: a document with a string id and no stamp-named field is recovered from its payload |
| StateStore.FirstCurrent | app/lambda_function.py:111 | find_one returns the first record with currentState, or none when no record has it |
| StateStore.FirstMatch | app/lambda_function.py:131-132 | the update filter selects the first record for (db, coll), or none |
| StateStore.Bootstrap | app/lambda_function.py:115-116 | the inserted record is current, is for (db, coll), and has no `lastProcessed` |
| StateStore.Store | app/lambda_function.py:131-132 | the store keeps the collection's length, changes nothing when no record is for (db, coll), and otherwise sets `lastProcessed` on the first one |
| StateStore.ReadAsWritten | app/lambda_function.py:104-122 | as written, the read raises KeyError exactly when the current record has no `lastProcessed`, and otherwise agrees with the corrected read |
| StateStore.Read | app/lambda_function.py:104-122 | the corrected read fails only when the collection is unreachable; afterwards a current record exists and holds the token returned; the collection is unchanged, or the bootstrap record is appended when there was no current record |
| StateStore.SameKeysFind | app/lambda_function.py:111-132 | collections that agree on db, collection and currentState select the same records for read and store |
| StateStore.StoreTouchesOnlyLastProcessed | app/lambda_function.py:125-136 | a store changes only `lastProcessed`, and only on the first record for (db, coll) |
| StateStore.StoreOverwrites | app/lambda_function.py:131-132 | a later store replaces an earlier one |
| StateStore.ReadAfterStore | app/lambda_function.py:104-136 | on a coherent collection the next read returns the token just stored, and coherence is kept |
| StateStore.ReadBootstrap | app/lambda_function.py:112-116 | with no current record, the read inserts exactly one current record for (db, coll) without `lastProcessed` and returns null; the result is coherent when no record for (db, coll) existed |
| StateStore.ReadExisting | app/lambda_function.py:111-113 | an existing current record is read and not changed; as written, a record without `lastProcessed` raises KeyError |
| StateStore.ReadAsWrittenRaisesAfterBootstrap | app/lambda_function.py:112-116 | as written, the record the first read inserts makes the second read raise KeyError |
| StateStore.ReadIdempotent | app/lambda_function.py:104-122 | corrected, reading again the collection a read left behind gives the same token and changes nothing |
| Sinks.FanOut | app/lambda_function.py:347-395 | the fan-out never touches the state collection or the uploaded batches, and any error it raises is the failure of an enabled sink that fails |
| Sinks.FailurePoint | app/lambda_function.py:347-395 | the position of the first enabled sink that fails, none before it failing |
| Sinks.Position | app/lambda_function.py:347-366 | each sink has its place in the order ES, batch, Kinesis, MSK, SNS |
| Sinks.DeliveredStep | app/lambda_function.py:347-395 | passing one more sink adds exactly that sink's delivery when it is enabled |
| Sinks.FanOutFrom | app/lambda_function.py:347-395 | the fan-out from any sink up to the first failing one equals the reference delivery up to that failure |
| Sinks.FanOutInOrder | app/lambda_function.py:347-395 | enabled sinks receive the event in order (ES an index/delete command, Kinesis and MSK keyed by the id, batch and SNS the payload) until the first failing enabled sink, whose failure is raised; no later sink is reached |
| Sinks.FanOutComplete | app/lambda_function.py:347-395 | with no failure every enabled sink receives the event exactly once and every disabled sink nothing |
| Sinks.DisabledFailuresUnseen | app/lambda_function.py:347-395 | failures of disabled sinks are never met, and the fan-out completes |
| Sinks.TracesConcat | app/lambda_function.py:322-403 | delivering one sequence of events and then another is delivering both, in order |
| Sinks.FanOutTraces | app/lambda_function.py:347-395 | a fan-out that raises nothing has delivered the event to every enabled sink and to no other |
| Replication.Checkpoint | app/lambda_function.py:399-403 | after an event the token is stored exactly when the batch sink is off and events_processed >= STATE_SYNC_COUNT; the loop stops exactly when that store is due and raises, with the store's failure; nothing else changes |
| Replication.LoopStep | app/lambda_function.py:322-403 | one iteration moves i by one; it takes the stream's token; a stream failure stops the loop with that OperationFailure; a malformed event stops it with the exception normalisation raises; a failing enabled sink stops it with that failure after the earlier deliveries; an empty poll continues exactly when no checkpoint was read, else breaks; only an event changes the world or the count; with the batch sink on nothing is stored |
| Replication.Loop | app/lambda_function.py:319-403 | at most MAX_LOOP polls and never past the stream's end; every event is counted whatever its operation type; a loop that meets no event changes nothing; it ends early only at an empty poll when a checkpoint was read; with the batch sink on nothing is stored; without an exception it ends holding the resume token of its last poll |
| Replication.EmptyPoll | app/lambda_function.py:328-335 | at an empty poll the loop breaks when a checkpoint was read, and otherwise goes on to the next poll |
| Replication.CheckpointedStep | app/lambda_function.py:399-403 | an iteration keeps the in-loop checkpoint invariant, a later event's store overwriting an earlier one |
| Replication.InLoopCheckpoint | app/lambda_function.py:399-403 | with the batch sink off, a loop that ends without an error has stored the last event's token once events_processed reached STATE_SYNC_COUNT, and nothing before that |
| Replication.StopKeepsTable | app/lambda_function.py:322-403 | an iteration that leaves the loop, by a break or an exception, stores nothing |
| Replication.ExitStep | app/lambda_function.py:322-403 | with the batch sink off, an iteration either goes on, having counted its event and stored its token when due, or leaves the loop, a raising exit with the collection as it was |
| Replication.ExitCheckpointBase | app/lambda_function.py:322-403 | the collection left by the iteration that raises is the one it started with |
| Replication.ExitCheckpointStep | app/lambda_function.py:397-403 | an iteration before the one that raises keeps the checkpoint invariant, a later store overwriting an earlier one |
| Replication.ErrorExitCheckpoint | app/lambda_function.py:319-403 | with the batch sink off, a loop that raises holds as checkpoint the token of the last event before the poll that raised, once STATE_SYNC_COUNT was reached among those events, and otherwise the checkpoint it started with; the raising poll's token is never stored |
| Replication.NoEventNoToken | app/lambda_function.py:399 | a stretch of polls has a last event token exactly when it holds an event |
| Replication.Delivery | app/lambda_function.py:336-374 | a poll hands the sinks at most one event, never one of an ignored operation type |
| Replication.StepDelivers | app/lambda_function.py:336-403 | an iteration that goes on has delivered its event, if any, to every enabled sink |
| Replication.OnePollDelivery | app/lambda_function.py:336-403 | the reference deliveries of one poll are that poll's index command, payload and keyed payload |
| Replication.DeliveriesStep | app/lambda_function.py:322-403 | one iteration's deliveries followed by the rest of the loop's are the loop's deliveries |
| Replication.EsDeliveriesSplit | app/lambda_function.py:322-403 | the index commands of a stretch of polls are those of its first poll followed by the rest |
| Replication.PayloadDeliveriesSplit | app/lambda_function.py:322-403 | likewise for the payloads |
| Replication.KeyedDeliveriesSplit | app/lambda_function.py:322-403 | likewise for the keyed payloads |
| Replication.NoDelivery | app/lambda_function.py:328-335 | no poll, or an empty poll, delivers nothing |
| Replication.DeliveryStep | app/lambda_function.py:322-403 | an iteration within the budget either goes on, having delivered its event, or leaves the loop, without an exception only at an empty poll and with nothing delivered |
| Replication.LoopDelivers | app/lambda_function.py:319-403 | a loop that ends without an exception has delivered exactly the events of the polls it made, in order, to every enabled sink: index commands to ES, payloads to the batch file and SNS, keyed payloads to Kinesis and MSK; disabled sinks receive nothing |
| Replication.Recover | app/lambda_function.py:406-418 | every exception is re-raised, except that a failing reset raises its own failure; only an OperationFailure 136 whose reset succeeds changes the world, by storing null |
| Replication.Finish | app/lambda_function.py:420-441 | 201 exactly when no event was met, with nothing changed; 200 exactly when neither the upload nor the commit raises, with events_processed and the resume token stored; a raise leaves the checkpoint; the batch file is uploaded once, only after an event and before the commit |
| Replication.Opened | app/lambda_function.py:291-293 | opening the batch file empties it when the batch sink is on and changes nothing else |
| Replication.Start | app/lambda_function.py:291-316 | set-up fails when the state collection is unreachable; otherwise it returns the token the current record holds, reading an existing current record without change and bootstrapping one when there is none; a current record without `lastProcessed` reads as null, where the source raises KeyError |
| Replication.Stream | app/lambda_function.py:319-403 | the loop from i = 0 polls at most MAX_LOOP times, uploads nothing, counts every event, and ends with the resume token of its last poll, or with nothing changed when it made none |
| Replication.Invoke | app/lambda_function.py:284-441 | a failed read raises before anything but the batch file is touched; a failure to open the stream always raises; the bucket gains at most this invocation's batch file |
| Replication.InvocationDelivers | app/lambda_function.py:284-441 | after a loop without exception, raised or not, the invocation has delivered every event it polled to every enabled sink, in order |
| Replication.CleanRunCommits | app/lambda_function.py:420-441 | after a loop without exception: with no event the invocation returns 201 and leaves the world as set-up left it; otherwise, unless the upload or the commit raises, it returns 200 with the number of events, uploads the batch file when the batch sink is on, and the checkpoint is the token of the last poll, whatever the loop stored |
| Replication.RaisedRunCheckpoint | app/lambda_function.py:319-441 | at-least-once with the batch sink off: every raised invocation except the null reset after a history loss leaves as checkpoint the token of the last event processed in full, or the token read, never the token of the poll that raised, so a replay resumes before the interrupted event |
| Replication.InvokeAsWritten | app/lambda_function.py:111-113 | as written, the handler raises KeyError with only the batch file touched exactly when the read raises it (a current record without `lastProcessed`) or the corrected handler does so |
| Replication.AsWrittenAgrees | app/lambda_function.py:111-113 | as written and corrected, the handler behaves the same whenever the read does not meet a current record without `lastProcessed` |
| Replication.AsWrittenBootstrapRaises | app/lambda_function.py:112-116 | as written, a first invocation on a collection without a current record behaves like the corrected one, and if it returns 201 the next invocation that reaches the collection raises KeyError with the collection unchanged, and so does every later one |
| Replication.NoEventsNoCommit | app/lambda_function.py:420-440 | a 201 run leaves the world exactly as set-up left it; a 200 run processed at least one event |
| Replication.BatchAtomic | app/lambda_function.py:401-429 | with the batch sink on, a 200 run has uploaded exactly this invocation's batch file; a failed upload uploads nothing and stores nothing; the checkpoint changes only on a 200 run or on the null reset after history loss |
| Replication.HistoryLostResets | app/lambda_function.py:406-413 | an OperationFailure 136 from opening or polling the stream stores a null token and is re-raised; on a coherent collection the next read returns null |
| Replication.OtherFailuresReraise | app/lambda_function.py:406-418 | every other failure in the loop is re-raised, and nothing is stored after it |
| Replication.LoopKeepsCheckpoint | app/lambda_function.py:319-403 | the loop stores only tokens the stream reported, so it keeps a checkpoint no older than a bound the stream respects |
| Replication.CheckpointMonotone | app/lambda_function.py:316-429 | when the stream reports no token older than the one read at the start, a run without history loss leaves a checkpoint no older than it |
| Replication.FinishKeepsCheckpoint | app/lambda_function.py:420-429 | the final commit keeps a checkpoint no older than a bound that the resume token meets |
| Replication.CleanEventStep | app/lambda_function.py:336-403 | an event that normalises and meets no failure is delivered to every enabled sink, counted, and checkpointed when due |
| Replication.NormalizeInsertDeleteA | app/lambda_function.py:339-374 | an insert of {_id: "A", x: 1} and its delete normalise to the upsert and removal of "A" |
| Replication.EsOnly | app/lambda_function.py:347-349 | with only the search index enabled, an event reaches the index alone |
| Replication.InsertAStep | app/lambda_function.py:322-403 | the insert of "A" is indexed and counted; below STATE_SYNC_COUNT 2 nothing is stored |
| Replication.DeleteAStep | app/lambda_function.py:322-403 | the delete of "A" reaches the index and, at count 2, stores its token |
| Replication.StreamInsertDeleteA | app/lambda_function.py:319-403 | the loop over the insert and the delete of "A" ends with both index commands sent and token 8 stored |
| Replication.InsertThenDelete | app/lambda_function.py:284-435 | on a coherent collection the whole invocation returns 200 with 2 events, the index receives the upsert and then the delete, and the stored token is that of the delete; as written, the handler does the same unless the current record lacks `lastProcessed`, and then raises KeyError before polling |
| Replication.BacksOffThreeTimes | app/lambda_function.py:328-333 | with no checkpoint read, three empty polls do not end the loop |
| Replication.InsertAfterBackOff | app/lambda_function.py:336-403 | the insert after them is counted and, with STATE_SYNC_COUNT 1, stored |
| Replication.FirstRunBacksOff | app/lambda_function.py:104-435 | a first invocation on an empty state collection bootstraps, backs off over empty polls, processes the insert and returns 200, with the insert's token stored |
| Handler.Replicator.GetLastProcessedId | app/lambda_function.py:104-122 | returns the current record's token (null when missing), or inserts the bootstrap record and returns null; a failing read raises and changes nothing |
| Handler.Replicator.StoreLastProcessedId | app/lambda_function.py:125-136 | sets `lastProcessed` on the first record for (db, coll); a failing store raises and changes nothing |
| Handler.Replicator.PublishEs | app/lambda_function.py:348-349 | indexes (upsert) or deletes (removal) the document in the search index, or raises and changes nothing |
| Handler.Replicator.WriteBatch | app/lambda_function.py:352-354 | appends the payload to the batch file, or raises and changes nothing |
| Handler.Replicator.PublishKinesisEvent | app/lambda_function.py:260-281 | puts the payload on Kinesis keyed by the id, or raises and changes nothing |
| Handler.Replicator.PublishMessage | app/lambda_function.py:157-169 | sends the payload to MSK keyed by the id, or raises and changes nothing |
| Handler.Replicator.PublishSnsEvent | app/lambda_function.py:246-257 | publishes the payload to the event topic, or raises and changes nothing |
| Handler.Replicator.LoadDataS3 | app/lambda_function.py:211-227 | uploads exactly this invocation's batch file, or raises and changes nothing |
| Handler.Replicator.Offer | app/lambda_function.py:347-366 | one `if sink in os.environ` block performs the first step of the fan-out over the remaining sink order |
| Handler.Replicator.FanOut | app/lambda_function.py:347-395 | the publishing block leaves exactly the error and world of `Sinks.FanOut` |
| Handler.Replicator.HandleFailure | app/lambda_function.py:406-418 | the except clauses leave exactly the outcome and world of `Replication.Recover` |
| Handler.Replicator.Iterate | app/lambda_function.py:324-403 | one loop iteration leaves exactly the state of `Replication.LoopStep` and says whether the loop is left |
| Handler.Replicator.Process | app/lambda_function.py:336-403 | the event branch of an iteration leaves exactly the state of `Replication.LoopStep` at an event |
| Handler.Replicator.Sync | app/lambda_function.py:401-403 | the in-loop checkpoint leaves exactly the world of `Replication.Checkpoint` |
| Handler.Replicator.Conclude | app/lambda_function.py:420-440 | the else clause leaves exactly the outcome and world of `Replication.Finish` |
| Handler.Replicator.Begin | app/lambda_function.py:291-316 | set-up opens the batch file and reads the checkpoint as `Replication.Start` describes |
| Handler.Replicator.WatchLoop | app/lambda_function.py:319-403 | the while loop leaves exactly the error and final state of `Replication.Stream` |
| Handler.Replicator.Handle | app/lambda_function.py:284-441 | the handler returns exactly the outcome and leaves exactly the world of `Replication.Invoke` |

## Left out

- Alerts: `send_sns_alert` is called in every except clause and only publishes a message. The alert topic is not modelled. The alert's own failure and its recursion are not modelled either.
- Client set-up is not modelled: `get_db_client`, `get_state_collection_client`, `get_es_client`, `get_es_certificate` and `connect_kafka_producer`. This includes the key decryption and the bare `raise` in `connect_kafka_producer`. A failure there is outside the model.
- JSON encoding (`json_util.dumps`), key order within documents and UTF-8 encoding are not modelled: payloads are maps.
- `datetime.fromtimestamp(...).isoformat()` depends on the local time zone. It is the parameter `iso`.
- The batch file's name comes from the wall clock. The S3 key built from BUCKET_PATH and both names is not modelled. The bucket is a sequence of uploaded batch files.
- `time.sleep(1)` after an empty poll is not modelled. Only the `continue` is.
- The `finally` clause closes the batch file and the Kafka client. Neither has an effect in the model.
- `change_stream.alive` is modelled as "polls remain": the stream stays alive for exactly the polls in the `Feed`.
- The resume token is a natural number. Its BSON form is not modelled. `TokensAtLeast` states the ordering that the checkpoint monotonicity lemma assumes.
- A failure of the state collection is modelled as an exception other than OperationFailure. An OperationFailure raised by `find_one` or `update_one` itself is not modelled: in the source it would also reach the code-136 branch.
- Concurrent invocations on one state collection are not modelled.
- Handler.Replicator.GetLastProcessedId uses the corrected read. The as-written read is `StateStore.ReadAsWritten`; see Findings.
- Replication.Start reads the checkpoint with the corrected `StateStore.Read`, so a current record without `lastProcessed` gives null where line 113 raises KeyError during set-up; the as-written set-up is covered by `Replication.InvokeAsWritten`.
- Replication.Invoke reads the checkpoint with the corrected read, so it never raises the KeyError of a current record without `lastProcessed`. `Replication.InvokeAsWritten` adds that path, and `Replication.AsWrittenAgrees` shows the two differ only there.
- Handler.Replicator.Begin reads through the corrected `GetLastProcessedId`, so it never raises that KeyError; the as-written set-up is covered only by `Replication.InvokeAsWritten`.
- Handler.Replicator.Handle is proved against `Replication.Invoke`, the corrected handler; the as-written KeyError path is covered only by `Replication.InvokeAsWritten`.

## Findings

| source | as written | input that shows it | evidently intended | confidence | as-written member | corrected member |
|---|---|---|---|---|---|---|
| app/lambda_function.py:112-116 | `get_last_processed_id` indexes `state_doc['lastProcessed']`, but the bootstrap insert creates the current record without that field | a first invocation on a state collection without a current record that processes no event returns 201 without storing a token, and every later invocation raises KeyError when it reads the checkpoint (`StateStore.ReadAsWrittenRaisesAfterBootstrap`, `Replication.AsWrittenBootstrapRaises`) | a missing `lastProcessed` reads as null, like the record just inserted, so reading is idempotent (`StateStore.ReadIdempotent`) | not executed | StateStore.ReadAsWritten | StateStore.Read |
