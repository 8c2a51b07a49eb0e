# bullmq-extra core, modelled in Dafny

This project models the decision logic of four bullmq-extra components.
The Redis store is replaced by in-memory maps and sequences. A BullMQ queue is
modelled by the sequence of `add` calls made on it.

- **Accumulation**: a per-group-key state machine. Source jobs push their
  payload onto the group's list (newest first). An evaluation, serialised per
  key by the limiter, checks the completion guard. It then completes the
  group (sets the guard, returns `onComplete(list)`) or queues a timeout job.
  A fired timeout job evaluates with `terminate`. Results that are truthy go
  to the target queue.
- **Join**: the same pattern over S declared sources, each owning one
  overwritable slot per join key. Completion happens when every source has a
  slot or on `terminate`. The gathered list keeps declaration order.
- **Stream consumer and producer** (router): a Redis stream with `ms-seq`
  ids, consumer groups with a delivered cursor and a pending-entries list
  (PEL), and the commands the code uses (`RedisStreams`).
  - The producer appends one `data`/`opts` entry per `produce`.
  - The consumer creates its group, then loops over three phases: pending
    read, trim, new-entries read. Each entry's callback is acknowledged only
    when it succeeds.
- **Router**: fluent configuration; then one stream, one consumer and one
  queue-to-stream worker per source; then one consumer group per (source,
  target) pair, named `source:target`. Options are merged per entry, with the
  override winning. A close counter decides when `run` returns.

Each imperative class (`Accumulation`, `Join`, `Consumer`, `Producer`,
`Router`, the store `Redis`) updates its fields in place. Each of its methods
is proved to make exactly the transition of a specification function in the
matching `…Spec` module. The properties are proved as lemmas about those
functions.

Where the documented behaviour and the code differ, the model follows the code:

- A join does not drop a falsy join key. It renders it as text (`undefined`)
  and joins it like any other key (`JoinSpec.SingleSourceCompletesImmediately`).
- The consumer's pending branch cannot be entered. A pending read answers with
  one stream, and the guard asks for more than one
  (`ConsumerSpec.PendingBranchUnreachable`). Entries whose callback failed
  therefore stay pending and are never retried. The branch body is still
  modelled as written: every in-retention id reprocesses the whole batch.
- Trimming is exact (`XTRIM MINID` without `~`). The cutoff is
  `(now - maxRetentionMs) || 86400000`, so without the option it is a fixed
  instant one day after the epoch (`ConsumerSpec.CutoffPrecedence`).
- Join expiries go through `expire`, which counts seconds. Accumulation
  expiries go through `pexpire`, which counts milliseconds
  (`JoinSpec.ExpiryIsInSeconds`).
- A join queues a timeout job whenever exactly one slot is present at
  evaluation time. This can happen more than once for a key. An accumulation
  queues one when exactly one payload is stored at evaluation time. This can
  happen never, when two payloads arrive before the first evaluation
  (`AccumulationSpec.OverlappingArrivalsScheduleNoTimeout`).
- Running the router twice is not a no-op. It creates a second consumer and
  worker per source. The new consumers reuse the existing groups, because
  group creation swallows `BUSYGROUP`.
- The router is configured only through `addSources`, `addTargets` and
  `setOptions`. No constructor takes sources, targets and options.

## Model

| member | source | states |
|---|---|---|
| `AccumulationEngine.Accumulation.constructor` | src/accumulation/accumulation.ts:28-61 | a new accumulation has empty lists, guards, expiries, timeout queue and target |
| `AccumulationEngine.Accumulation.StoreData` | src/accumulation/accumulation.ts:118-127 | the store after `storeData` is exactly `AccumulationSpec.StoreData` of the store before |
| `AccumulationSpec.StoreData` | src/accumulation/accumulation.ts:118-127 | a falsy key changes nothing; otherwise the payload goes on the front of its own group's list and that list's expiry becomes 2×timeout ms; every other group's list, every guard, the timeout queue and the target are unchanged |
| `AccumulationEngine.Accumulation.Evaluate` | src/accumulation/accumulation.ts:129-164 | the new state and the returned result are those of `AccumulationSpec.Evaluate` |
| `AccumulationEngine.Accumulation.Publish` | src/accumulation/accumulation.ts:77-80 | the target grows by the result exactly when there is a truthy result and a target; nothing else changes |
| `AccumulationEngine.Accumulation.OnSourceJob` | src/accumulation/accumulation.ts:66-82 | the source worker's handler makes the transition of the run of `[Store(data), Eval(key, false)]` |
| `AccumulationEngine.Accumulation.OnTimeoutJob` | src/accumulation/accumulation.ts:90-105 | the timeout worker's handler makes the transition of the run of `[Eval(key, true)]` |
| `AccumulationSpec.KeysInjective` | src/accumulation/accumulation.ts:124-133 | within one accumulation, distinct group keys get distinct value lists, guards and limiter keys |
| `AccumulationSpec.ValueAndGuardKeysDisjoint` | src/accumulation/accumulation.ts:124-133 | a value list key never equals a guard key, whatever the names and keys |
| `Values.NumKeysDistinct` | src/accumulation/accumulation.ts:124 | distinct numeric keys render to distinct key text |
| `AccumulationSpec.GuardedEvaluationIsNoOp` | src/accumulation/accumulation.ts:133-137 | with the guard present, an evaluation returns nothing and changes nothing |
| `AccumulationSpec.EvaluationCompletes` | src/accumulation/accumulation.ts:150-155 | an evaluation completes iff the guard is absent and (`terminate` or `isComplete` accepts the whole stored list); the result is `onComplete` of that list; the guard is set with expiry 2×timeout; lists and target are untouched |
| `AccumulationSpec.EvaluationSchedulesTimeout` | src/accumulation/accumulation.ts:157-163 | a timeout job `{groupKey}` with delay `timeout` is queued iff the group is open, not completing, and holds exactly one payload at evaluation time |
| `AccumulationSpec.OnlyTimeoutClosesWithoutPredicate` | src/accumulation/accumulation.ts:150 | without `isComplete`, a non-terminating evaluation completes nothing and closes no guard |
| `AccumulationSpec.FalsyKeyIsDropped` | src/accumulation/accumulation.ts:66-96 | a source job or timeout job with a falsy key leaves the state unchanged and completes nothing |
| `AccumulationSpec.FirstItemSchedulesTimeout` | src/accumulation/accumulation.ts:138-163 | for a non-completing source job on an open group, a timeout job is queued iff the group held no payload before |
| `AccumulationSpec.OverlappingArrivalsScheduleNoTimeout` | src/accumulation/accumulation.ts:138-163 | two payloads stored before either evaluation: no timeout job is queued and, without `isComplete`, the group stays open |
| `AccumulationSpec.CompletionsAreFresh` | src/accumulation/accumulation.ts:133-155 | over any run, guards are never removed, and every completed key was open at the start and is closed at the end |
| `AccumulationSpec.CompletesAtMostOnce` | src/accumulation/accumulation.ts:133-155 | in any interleaving of stores, source evaluations and timeout evaluations, no group completes twice |
| `AccumulationSpec.TargetReceivesCompletions` | src/accumulation/accumulation.ts:75-104 | over any run, the target receives exactly the truthy results of the completions, in order, when a target is configured |
| `AccumulationSpec.ReverseContents` | src/accumulation/accumulation.ts:125 | pushing items one by one onto the front of the list leaves position `i` holding the `i`-th item from the last |
| `AccumulationSpec.CollectWithoutCompleting` | src/accumulation/accumulation.ts:118-163 | non-accepted items of an open group are stored newest first, complete nothing, and queue a timeout job only for the first item of an empty group |
| `AccumulationSpec.CompleteOne` | src/accumulation/accumulation.ts:150-155 | a source job whose list is accepted completes the group once with `onComplete` of the new list and closes it |
| `AccumulationSpec.CompleteOnLastItem` | src/accumulation/accumulation.test.ts:28-82 | with `isComplete` "exactly n payloads", n items of a fresh group give exactly one completion, on the last item, with all items newest first; one timeout job when n > 1 |
| `AccumulationSpec.TimeoutCompletesCollection` | src/accumulation/accumulation.test.ts:84-133 | without `isComplete`, a fresh group's items complete nothing and queue one timeout job; when it fires, the group completes with all items |
| `JoinEngine.Join.constructor` | src/join/join.ts:23-45 | a new join has empty slots, guards, expiries, timeout queue and target |
| `JoinEngine.Join.StoreData` | src/join/join.ts:88-93 | the store after `storeData` is exactly `JoinSpec.StoreData` of the store before |
| `JoinSpec.StoreData` | src/join/join.ts:88-93 | the source's slot for the key is overwritten (last write wins) with expiry 2×effective timeout in seconds; every other slot, guard, timeout job and the target are unchanged |
| `JoinSpec.EffectiveTimeout` | src/join/join.ts:92 | an absent or zero timeout means one hour; any other timeout is used as given |
| `JoinSpec.ExpiryIsInSeconds` | src/join/join.ts:92 | a slot's expiry, read in milliseconds, is 2000 × the effective timeout |
| `JoinEngine.Join.Evaluate` | src/join/join.ts:95-136 | the new state and the returned result are those of `JoinSpec.Evaluate` |
| `JoinSpec.Gather` | src/join/join.ts:104-113 | at most one entry per source, and as many as sources iff every source has a slot |
| `JoinSpec.GatherContents` | src/join/join.ts:104-119 | every gathered `{queue, val}` is that queue's current slot, and every source with a slot is gathered |
| `JoinSpec.GatherAppend` | src/join/join.ts:104-113 | gathering keeps declaration order: sources `a + b` gather `a`'s slots then `b`'s |
| `JoinEngine.Join.Publish` | src/join/join.ts:57-60 | the target grows by the result exactly when it is truthy |
| `JoinEngine.Join.OnSourceJob` | src/join/join.ts:51-62 | a source worker's handler makes the transition of the run of `[Store(source, data), Eval(key, false)]` |
| `JoinEngine.Join.OnTimeoutJob` | src/join/join.ts:70-81 | the timeout worker's handler makes the transition of the run of `[Eval(key, true)]` |
| `JoinSpec.SlotKeyQueueInjective` | src/join/join.ts:90 | for one join and key, sources with different queue names have different slots |
| `JoinSpec.SlotKeyInjective` | src/join/join.ts:90 | when queue names contain no `:`, a slot key determines both the join key and the queue |
| `JoinSpec.SlotKeysCollideWithColonInQueue` | src/join/join.ts:90 | with a `:` in a queue name, different (key, queue) pairs can share a slot |
| `JoinSpec.GuardKeysInjective` | src/join/join.ts:99 | distinct join keys get distinct guards and limiter keys |
| `JoinSpec.GuardedEvaluationIsNoOp` | src/join/join.ts:99-103 | with the guard present, an evaluation returns nothing and changes nothing |
| `JoinSpec.EvaluationCompletes` | src/join/join.ts:115-127 | an evaluation completes iff the guard is absent and (`terminate` or every source has a slot); the result is `onComplete` of the gathered slots; the guard is set; slots and target untouched |
| `JoinSpec.EvaluationSchedulesTimeout` | src/join/join.ts:129-135 | a timeout job `{joinKey}` with the effective timeout is queued iff the key is open, not completing, and exactly one source has a slot |
| `JoinSpec.CompletionsAreFresh` | src/join/join.ts:99-126 | over any run, guards are never removed, and every completed key was open at the start and is closed at the end |
| `JoinSpec.CompletesAtMostOnce` | src/join/join.ts:99-126 | in any interleaving of stores and evaluations, no join key completes twice |
| `JoinSpec.TargetReceivesCompletions` | src/join/join.ts:55-80 | over any run, the target receives exactly the truthy results of the completions, in order |
| `JoinSpec.TwoSourcesComplete` | src/join/join.test.ts:28-93 | two sources sending one payload each for a fresh key: one timeout job, then one completion with both payloads in declaration order |
| `JoinSpec.PartialJoinCompletesOnTimeout` | src/join/join.test.ts:154-216 | only the first of two sources sends: one timeout job, and when it fires the key completes with that payload alone |
| `JoinSpec.SingleSourceCompletesImmediately` | src/join/join.ts:51-61 | with one source, every job completes its open key at once, falsy keys included |
| `StreamConsumer.Consumer.constructor` | src/router/consumer.ts:14-30 | a new consumer has the given stream and options (empty when absent), `lastTrim` 0, not closing, no history |
| `StreamConsumer.Consumer.DecodeFields` | src/router/consumer.ts:161-165 | the record the loop builds is `FieldRecord` of the field list |
| `ConsumerSpec.FieldRecordKeys` | src/router/consumer.ts:160-165 | the record's keys are exactly the strings at even positions |
| `ConsumerSpec.FieldRecordAppendPair` | src/router/consumer.ts:162-165 | a later pair overrides an earlier value of the same key |
| `StreamConsumer.Consumer.ProcessEntry` | src/router/consumer.ts:166-174 | one entry's effect on store, calls and errors, and what it throws, is `ConsumerSpec.ProcessOne` |
| `ConsumerSpec.ProcessOne` | src/router/consumer.ts:166-174 | processing one entry never changes what is undelivered or `lastTrim`, and only extends calls and errors |
| `StreamConsumer.Consumer.ProcessMessages` | src/router/consumer.ts:152-176 | the batch's effect and what it throws is `ConsumerSpec.ProcessSpec` |
| `ConsumerSpec.ProcessSpec` | src/router/consumer.ts:152-176 | a batch never changes what is undelivered or `lastTrim`, and only extends calls and errors |
| `ConsumerSpec.ProcessOneHistory` | src/router/consumer.ts:166-169 | a decodable entry gives exactly one call with its id and group; an undecodable one throws `Undecodable(id)` and calls nothing |
| `ConsumerSpec.ProcessSpecHistory` | src/router/consumer.ts:159-175 | calls follow the batch order, one per entry, for the group read; the batch stops exactly at the first undecodable entry, which is thrown |
| `ConsumerSpec.ProcessOneErrors` | src/router/consumer.ts:168-174 | an entry read from the stream emits an error iff its callback failed, and makes one call unless it is thrown |
| `ConsumerSpec.ProcessSpecErrors` | src/router/consumer.ts:159-175 | a batch read from the stream emits one `CallbackFailed` per failed call, in call order, and no other error: acknowledging a store-printed id never fails |
| `ConsumerSpec.XAckPel` | src/router/consumer.ts:170 | acknowledging a store-printed id succeeds and removes exactly that id from the PEL |
| `ConsumerSpec.ProcessOneAcks` | src/router/consumer.ts:168-174 | one entry leaves the PEL iff its callback succeeded |
| `ConsumerSpec.ProcessSpecAcks` | src/router/consumer.ts:160-175 | a batch removes from the PEL exactly the entries whose callback succeeded |
| `StreamConsumer.Consumer.PendingBatch` | src/router/consumer.ts:80-97 | the `for` loop over the pending ids has the effect of `ConsumerSpec.PendingBatchSpec` over the whole reply; what that means is stated by `PendingExpiredAcked`, `PendingRecentStep` and `PendingRecentReprocesses` |
| `ConsumerSpec.PendingBatchSpec` | src/router/consumer.ts:80-97 | the pending branch only extends calls and errors |
| `ConsumerSpec.PendingExpiredAcked` | src/router/consumer.ts:84-96 | pending entries all older than the retention are acknowledged without a callback: no call, no error, nothing thrown, and exactly their ids leave the PEL |
| `ConsumerSpec.PendingRecentStep` | src/router/consumer.ts:84-93 | an id within the retention reprocesses the whole reply; a throw from that ends the branch, otherwise the next id follows |
| `ConsumerSpec.PendingRecentReprocesses` | src/router/consumer.ts:84-93 | with every id within the retention and every entry decodable, the callback runs once per entry of the reply for each id (the number of ids times the number of entries) and nothing is thrown |
| `ConsumerSpec.ProcessSpecDecodable` | src/router/consumer.ts:159-175 | a batch of decodable entries throws nothing and calls back once per entry |
| `StreamConsumer.Consumer.PendingStep` | src/router/consumer.ts:75-102 | when the guard fails, nothing changes and the loop stops; when it holds, the batch runs and the loop goes on unless something was thrown |
| `StreamConsumer.Consumer.PendingPhase` | src/router/consumer.ts:62-103 | the pending loop's effect is `ConsumerSpec.PendingPhaseSpec` |
| `ConsumerSpec.PendingBranchUnreachable` | src/router/consumer.ts:64-79 | every successful pending read fails the guard and leaves the store unchanged |
| `RedisStreams.PendingReplyIsSingleStream` | src/router/consumer.ts:64-73 | a successful pending read answers with exactly one stream |
| `StreamConsumer.Consumer.TrimStream` | src/router/consumer.ts:178-208 | `trimStream` at `now` has the effect of `ConsumerSpec.TrimSpec` |
| `ConsumerSpec.TrimDecision` | src/router/consumer.ts:179-207 | before the interval nothing changes; after it `lastTrim` is `now`, and the stream is trimmed to the entries at or above `cutoff-0` iff it is non-empty and its oldest timestamp is below the cutoff |
| `ConsumerSpec.CutoffPrecedence` | src/router/consumer.ts:190-191 | without `maxRetentionMs` the cutoff is 86400000 whatever `now`; with it, `now - maxRetentionMs` when `now` differs from it, and 86400000 when they are equal |
| `ConsumerSpec.CutoffIdParses` | src/router/consumer.ts:205 | `${cutoff}-0` parses to the id `cutoff-0` when the cutoff is not negative, and is rejected otherwise |
| `ConsumerSpec.TimestampOfIdString` | src/router/consumer.ts:85 | `Number(id.split('-')[0])` of a store-printed id is its milliseconds part |
| `Decimal.JsNumber` | src/router/consumer.ts:85 | `Number` on integer text: empty gives 0, digits give their value, a negative result needs a leading `-` |
| `Decimal.JsNumberOfNatToString` | src/router/consumer.ts:85 | `Number` reads back the rendering of any natural number |
| `StreamConsumer.Consumer.NewPhase` | src/router/consumer.ts:108-138 | the new-entries loop's effect is `ConsumerSpec.NewPhaseSpec`; it terminates because each non-empty read shrinks what is undelivered |
| `ConsumerSpec.ReadNewShrinks` | src/router/consumer.ts:110-125 | a `>` read that returns entries strictly shrinks what is undelivered |
| `ConsumerSpec.NewPhaseSpec` | src/router/consumer.ts:108-138 | the new-entries phase only extends calls and errors |
| `ConsumerSpec.NewPhaseDrains` | src/router/consumer.ts:108-138 | when the new-entries phase ends without an error, nothing is undelivered to the group |
| `StreamConsumer.Consumer.Iteration` | src/router/consumer.ts:60-146 | one outer pass (pending, trim, new; an exception skips the rest and is emitted) has the effect of `ConsumerSpec.IterationSpec` |
| `StreamConsumer.Consumer.Loop` | src/router/consumer.ts:59-147 | the outer loop, one pass per clock reading until closed, has the effect of `ConsumerSpec.LoopSpec` |
| `ConsumerSpec.LoopSpec` | src/router/consumer.ts:59-147 | the outer loop only extends calls and errors |
| `StreamConsumer.Consumer.Consume` | src/router/consumer.ts:32-150 | `consume` has the effect of `ConsumerSpec.ConsumeSpec`: create the group, emit a rethrown error, or run the loop |
| `ConsumerSpec.GroupCreationNeverRethrows` | src/router/consumer.ts:43-57 | group creation never rethrows: it swallows an existing group iff the group exists, else creates it at `0` with an empty PEL |
| `ConsumerSpec.BusyGroupIsRecognised` | src/router/consumer.ts:53 | the store's existing-group error contains `BUSYGROUP` |
| `StreamConsumer.Consumer.Close` | src/router/consumer.ts:59-62 | closing sets the flag the loops test and leaves the history unchanged |
| `StreamConsumer.Consumer.GetLength` | src/router/consumer.ts:210-213 | the length returned is the number of entries in the stream |
| `RedisStreams.Redis.CreateGroup` | src/router/consumer.ts:45-51 | the reply is `XGROUP CREATE … 0 MKSTREAM`'s; the store changes only when it succeeds |
| `RedisStreams.NewGroupSeesWholeStream` | src/router/consumer.ts:45-51 | a group created at `0` has every entry of the stream undelivered, including those produced before `consume` |
| `RedisStreams.Redis.ReadGroupNew` | src/router/consumer.ts:110-119 | the reply is `XREADGROUP … >`'s; the store changes only when it succeeds |
| `RedisStreams.Redis.ReadGroupPending` | src/router/consumer.ts:64-73 | the reply is `XREADGROUP … 0`'s; the store is not changed |
| `RedisStreams.Take` | src/router/consumer.ts:68-69 | a read returns a prefix of at most `COUNT` entries (all when the count is not positive) |
| `RedisStreams.ReadNewReply` | src/router/consumer.ts:110-125 | a `>` read on an existing group returns nil iff nothing is undelivered; otherwise the next batch, now pending for the reader, with the cursor at its last id |
| `RedisStreams.ReadNewKeepsValid` | src/router/consumer.ts:110-119 | a `>` read keeps every stream well formed |
| `RedisStreams.BatchThenRest` | src/router/consumer.ts:110-119 | what is undelivered is the batch handed out followed by what is after its last id |
| `RedisStreams.ReadNewDelivers` | src/router/consumer.ts:108-138 | what is undelivered before a `>` read is the batch followed by what is undelivered after it: every entry once, in stream order, never redelivered, whichever consumer name reads |
| `RedisStreams.Redis.Ack` | src/router/consumer.ts:170 | the reply is `XACK`'s; the store changes only when it succeeds |
| `RedisStreams.XAckRemoves` | src/router/consumer.ts:95 | acknowledging a delivered id removes exactly it from that group's PEL; entries, other groups and other streams are unchanged |
| `RedisStreams.IdStringInjective` | src/router/consumer.ts:95 | distinct ids print differently |
| `RedisStreams.ParseIdString` | src/router/consumer.ts:170 | the store parses back every id it prints |
| `RedisStreams.Redis.RangeFirst` | src/router/consumer.ts:192-198 | the reply is the oldest entry, or nothing for an empty stream |
| `RedisStreams.Redis.TrimMinId` | src/router/consumer.ts:205 | the reply is `XTRIM MINID`'s; the store changes only when it succeeds |
| `RedisStreams.XTrimMinIdKeeps` | src/router/consumer.ts:205 | exact trimming keeps exactly the entries not below the id, keeps groups, keeps validity, never grows the stream |
| `RedisStreams.Redis.Len` | src/router/consumer.ts:212 | the reply is the number of entries |
| `StreamProducer.Producer.constructor` | src/router/producer.ts:8-22 | a producer writes the named stream of the given store |
| `StreamProducer.Producer.Produce` | src/router/producer.ts:24-35 | the store after `produce` is that of `XADD name *` with the fields `data`, encoded payload, `opts`, encoded options |
| `RedisStreams.Redis.Add` | src/router/producer.ts:26-33 | the new store and the id are those of `XADD` |
| `RedisStreams.NextId` | src/router/producer.ts:28 | an id assigned by `*` is after the stream's last id, at the current millisecond when the clock moved on |
| `RedisStreams.XAddAppends` | src/router/producer.ts:26-33 | `XADD` appends exactly one entry at the end with an id after every issued id; groups and other streams are unchanged; validity is kept |
| `StreamProducer.OrEmpty` | src/router/producer.ts:32 | falsy options become `{}`, other options pass unchanged; the result is truthy |
| `StreamProducer.ProducedEntryDecodes` | src/router/producer.ts:26-33 | the consumer's decoder sees exactly the fields `data` and `opts` of a produced entry and gets back the payload and `opts \|\| {}` |
| `StreamProducer.ProducesKeepOrder` | src/router/producer.ts:26-33 | two produces append two entries in call order with increasing ids |
| `StreamProducer.ReadAfterProduce` | src/router/consumer.ts:110-119 | after a produce onto a caught-up group, a `>` read hands out exactly the new entry, and nothing is left undelivered |
| `StreamProducer.ProcessProduced` | src/router/consumer.ts:159-175 | processing a produced entry calls back once with the original payload and options and throws nothing |
| `StreamProducer.NewPhaseIdle` | src/router/consumer.ts:121-137 | with nothing undelivered, the new-entries phase changes nothing |
| `StreamProducer.NewPhaseOneBatch` | src/router/consumer.ts:121-133 | a batch processed without throwing is followed by another read |
| `StreamProducer.ProducedEntryIsConsumed` | src/router/consumer.ts:108-138 | an entry produced while a group is caught up is handed to the callback exactly once, with the original payload and `opts \|\| {}`; nothing is left undelivered |
| `StreamRouter.Router.constructor` | src/router/router.ts:10-16 | a new router has no sources, targets, consumers, workers or registrations, a zero count, and empty options |
| `StreamRouter.Router.AddSources` | src/router/router.ts:18-21 | the names are appended in order to the sources, nothing else changes, and the router itself is returned |
| `StreamRouter.Router.AddTargets` | src/router/router.ts:23-26 | the names are appended in order to the targets, nothing else changes, and the router itself is returned |
| `StreamRouter.Router.SetOptions` | src/router/router.ts:28-31 | the options are replaced whole, nothing else changes, and the router itself is returned |
| `StreamRouter.Router.Run` | src/router/router.ts:33-86 | one new consumer and worker per source, in order, on `bullmq__router_<source>` with the router's options; registrations are exactly `AllSubscriptions`; `closed` is the last new promise; every new promise is unresolved |
| `StreamRouter.Router.StartSource` | src/router/router.ts:36-56 | a fresh idle consumer on the source's stream and a fresh worker feeding that stream from the source queue |
| `StreamRouter.Router.Register` | src/router/router.ts:42-80 | one pass of `run` extends what `run` has built by one source |
| `StreamRouter.Router.Registrations` | src/router/router.ts:67-80 | the inner loop registers one `consume` per target, in order, under group `<source>:<target>` |
| `RouterSpec.AllSubscriptionsCover` | src/router/router.ts:35-69 | every (source, target) pair is registered on its source's consumer under `<source>:<target>`, and nothing else is |
| `RouterSpec.StreamNameInjective` | src/router/router.ts:36 | distinct sources get distinct streams |
| `RouterSpec.GroupNamesDistinct` | src/router/router.ts:68 | on one stream, distinct targets get distinct groups, so each target sees every entry |
| `RouterSpec.OverrideWins` | src/router/router.ts:72-75 | merged options have the union of keys; the override wins on its keys; entry options keep the rest; with no override, object options pass through unchanged |
| `RouterSpec.ForwardedAllOk` | src/router/router.ts:71-78 | when every callback succeeds, the target receives one `default` job per call, in call order, with the call's payload and merged options |
| `RouterSpec.ForwardedAppend` | src/router/router.ts:71-78 | the jobs forwarded for consecutive runs of calls are concatenated in order |
| `StreamRouter.Router.Pump` | src/router/router.ts:67-80 | a registration's consume follows `ConsumeSpec`; its target gains exactly the forwarded jobs of the new calls, in order; the consumer's `closing` flag and everything else are unchanged |
| `StreamRouter.QueueToStreamWorker.constructor` | src/fanout/queue-to-stream-worker.ts:8-24 | the worker's producer writes the given stream of the given store |
| `StreamRouter.QueueToStreamWorker.Process` | src/fanout/queue-to-stream-worker.ts:19-22 | processing a job produces its data and options onto the stream |
| `StreamRouter.Router.Forward` | src/router/router.ts:54-56 | worker `i` appends a job to the stream its consumer reads |
| `StreamRouter.QueueToStreamWorker.Close` | src/router/router.ts:89-91 | a closed worker is marked closed |
| `StreamRouter.Router.OnConsumerClosed` | src/router/router.ts:58-65 | the `close` handler bumps the count by one and resolves its own promise iff the count reaches the number of consumers |
| `RouterSpec.OnlyLastCloseResolves` | src/router/router.ts:58-65 | from a zero count, after all n consumers close, exactly the promise of the last one to close is resolved |
| `RouterSpec.EarlyClosesResolveNothing` | src/router/router.ts:58-65 | before the count reaches n, no close resolves anything |
| `StreamRouter.Router.Close` | src/router/router.ts:88-95 | every worker is closed, then every consumer in creation order; the count grows by the number of consumers; each consumer's calls, errors and `lastTrim` are unchanged |
| `StreamRouter.Router.CloseWorkers` | src/router/router.ts:89-91 | every worker is closed |
| `StreamRouter.Router.CloseConsumers` | src/router/router.ts:92-94 | every consumer is closing with its calls, errors and `lastTrim` unchanged; each close event is counted and resolves as `CloseEvents` says; workers untouched |
| `StreamRouter.CloseAfterRunResolves` | src/router/router.ts:58-82 | closing a router that ran over at least one source, from a zero count, resolves the promise `run` awaits |

## Left out

- Redis and BullMQ are modelled by their effect on in-memory state. Connections, `waitUntilReady`, `getIORedisInstance`, `GetRedisInstance` and debug logging are left out.
- JSON is an abstract codec (`Codec`) with a `Lossless` hypothesis where a round trip is proved. Accumulation lists and join slots hold the values themselves, so their JSON round trip is taken as the identity.
- JoinSpec.Gather: counts every slot that exists. The code also drops a slot whose stored text is falsy, which only a payload that `JSON.stringify` turns into `undefined` can produce; such payloads are not modelled.
- Numbers are integers. Floating point, `NaN` arithmetic and id text with spaces, fractions or exponents are not modelled.
- Time is a parameter. `Date.now()` is read once per pass of the consumer loop. `produce` takes the time `XADD *` uses.
- TTL expiry and delayed-job firing are not simulated. The model records expiries and queued timeout jobs; a fired timeout job is an explicit step.
- The `blockTimeMs` sleep between passes is left out.
- The Bottleneck per-key limiter is modelled as atomic evaluations. The store and the evaluation of one job are separate steps that any other step may separate. Worker concurrency and cross-process races are otherwise out of scope.
- `getGroupKey`, `getJoinKey`, `isComplete`, `onComplete`, `optsOverride` and the consumer callback are deterministic function parameters. A callback that throws is a callback returning `false`.
- Spreading strings or arrays into options, which copies index keys, is not modelled. Such options count as having no properties.
- StreamConsumer.Consumer.Consume: runs one pass per element of the `clock` sequence, not forever. The consumer name (`uuid` v4) is a parameter.
- StreamConsumer.Consumer.Loop: `closing` cannot change during a call. A `close` concurrent with consuming is not modelled.
- Errors rejected by `waitUntilReady` and emitted by `consume`'s outer `catch` are left out. The model's store never produces such errors.
- StreamRouter.Router.Run: registers the `consume` calls as `Subscription` records. It does not run them, and it does not await `closed`. `Pump` runs one registration's consume. `RunResolved` says whether the awaited promise has resolved. The try/catch around the loop is not modelled.
- StreamRouter.Router.Run: does not itself state that the new consumers and workers are idle. `StartSource` states it.
- src/router/queue-to-stream-worker.ts is not part of this model. The fanout worker of the same name at src/fanout/queue-to-stream-worker.ts, which produces `job.data` and `job.opts` onto the stream, stands in for it.
- StreamRouter.Router.Pump: `jobs` records the `add` calls made on each target queue, not the queue's contents. BullMQ ignores an `add` whose `jobId` already exists, and `optsOverride` can set `jobId`; this deduplication is not modelled.
- Worker and consumer lifecycles beyond the `closed`/`closing` flags are left out. So are the `close` event machinery and the `blockingConnection: false` default merged into consumer options. Each consumer's `close` emits its event as it closes.
- Router routing with several sources and targets is proved piecewise, not as one end-to-end theorem over interleaved consumers:
  - every pair is registered (`AllSubscriptionsCover`);
  - each group receives every entry once in stream order (`ReadNewDelivers`, `NewGroupSeesWholeStream`);
  - each successful callback forwards one job in order (`Pump`, `ForwardedAllOk`).
- Accumulation `close` and the constructor's queue and limiter setup are left out. Closing just closes two workers.
