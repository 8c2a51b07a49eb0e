/** The stream consumer as an object: it owns `lastTrim` and the `closing`
    flag, shares the store with the producers, and records every callback it
    made and every error it emitted. Each method is proved to follow the
    functions of `ConsumerSpec`. */
module StreamConsumer {
  import opened Optional
  import opened Values
  import opened RedisStreams
  import opened ConsumerSpec

  class Consumer {
    const redis: Redis
    /** The stream read, `this.name`. */
    const name: string
    const options: Options
    const codec: Codec
    var lastTrim: int
    var closing: bool
    var calls: seq<Call>
    var errors: seq<ConsumerError>

    function State(): CState
      reads this, redis
    {
      CState(lastTrim, redis.db, calls, errors)
    }

    /** Missing options fall back to an empty option object. `codec` stands
        for `JSON.parse` and `JSON.stringify`. */
    constructor(redis: Redis, streamName: string, opts: Option<Options>, codec: Codec)
      ensures this.redis == redis && name == streamName && this.codec == codec
      ensures options == opts.GetOr(NoOptions)
      ensures lastTrim == 0 && !closing && calls == [] && errors == []
    {
      this.redis := redis;
      name := streamName;
      options := opts.GetOr(NoOptions);
      this.codec := codec;
      lastTrim := 0;
      closing := false;
      calls := [];
      errors := [];
    }

    /** Builds the record of an entry from its field/value list. */
    method DecodeFields(fields: seq<string>) returns (jobData: map<string, Option<string>>)
      ensures jobData == FieldRecord(fields)
    {
      jobData := map[];
      var i := 0;
      while i < |fields|
        invariant 0 <= i <= |fields| + 1 && i % 2 == 0
        invariant jobData == FieldRecord(fields[..if i <= |fields| then i else |fields|])
      {
        if i + 1 < |fields| {
          assert fields[..i + 2][..i] == fields[..i];
        } else {
          assert fields[..i + 1][..i] == fields[..i];
        }
        jobData := jobData[fields[i] := if i + 1 < |fields| then Some(fields[i + 1]) else None];
        i := i + 2;
      }
      assert fields[..|fields|] == fields;
    }

    /** One entry of `processMessages`. */
    method ProcessEntry(r: Reader, e: ReplyEntry) returns (thrown: Option<ConsumerError>)
      modifies this, redis
      ensures Processed(State(), thrown) == ProcessOne(codec, r, e, old(State()))
      ensures closing == old(closing)
    {
      var jobData := DecodeFields(e.fields);
      var data := DecodeField(codec, jobData, "data");
      var opts := DecodeField(codec, jobData, "opts");
      if data.None? || opts.None? {
        return Some(Undecodable(e.id));
      }
      var ok := r.cb(data.value, opts.value);
      calls := calls + [Call(r.group, e.id, data.value, opts.value, ok)];
      if !ok {
        errors := errors + [CallbackFailed(e.id)];
        return None;
      }
      var ack := redis.Ack(r.key, r.group, e.id);
      if ack.AckError? {
        errors := errors + [StoreError(ack.message)];
      }
      return None;
    }

    /** `processMessages` on the entries of the first stream of a reply. */
    method ProcessMessages(r: Reader, es: seq<ReplyEntry>) returns (thrown: Option<ConsumerError>)
      modifies this, redis
      ensures Processed(State(), thrown) == ProcessSpec(codec, r, es, old(State()))
      ensures closing == old(closing)
    {
      thrown := None;
      var i := 0;
      while i < |es| && thrown.None?
        invariant 0 <= i <= |es|
        invariant closing == old(closing)
        invariant thrown.None? ==> ProcessSpec(codec, r, es, old(State())) == ProcessSpec(codec, r, es[i..], State())
        invariant thrown.Some? ==> Processed(State(), thrown) == ProcessSpec(codec, r, es, old(State()))
      {
        assert es[i..][1..] == es[i + 1..];
        thrown := ProcessEntry(r, es[i]);
        i := i + 1;
      }
    }

    /** The body of the pending branch: reprocess the reply for ids within
        the retention, acknowledge the others. */
    method PendingBatch(r: Reader, all: seq<ReplyEntry>, now: int) returns (thrown: Option<ConsumerError>)
      modifies this, redis
      ensures Processed(State(), thrown) == PendingBatchSpec(codec, options, r, all, all, now, old(State()))
      ensures closing == old(closing)
    {
      thrown := None;
      var i := 0;
      while i < |all| && thrown.None?
        invariant 0 <= i <= |all|
        invariant closing == old(closing)
        invariant thrown.None? ==>
          PendingBatchSpec(codec, options, r, all, all, now, old(State())) == PendingBatchSpec(codec, options, r, all, all[i..], now, State())
        invariant thrown.Some? ==> Processed(State(), thrown) == PendingBatchSpec(codec, options, r, all, all, now, old(State()))
      {
        assert all[i..][1..] == all[i + 1..];
        var ts := TimestampOf(all[i].id);
        if ts.Some? && now - ts.value <= RetentionMs(options) {
          thrown := ProcessMessages(r, all);
        } else {
          var ack := redis.Ack(r.key, r.group, all[i].id);
          if ack.AckError? {
            thrown := Some(StoreError(ack.message));
          }
        }
        i := i + 1;
      }
    }

    /** One turn of the pending loop on a reply: `more` says whether the loop
        goes on. */
    method PendingStep(r: Reader, reply: ReadReply, now: int) returns (more: bool, thrown: Option<ConsumerError>)
      modifies this, redis
      ensures !PendingGuard(reply) ==> !more && thrown.None? && State() == old(State())
      ensures PendingGuard(reply) ==>
        && more == thrown.None?
        && Processed(State(), thrown) == PendingBatchSpec(codec, options, r, reply.streams[0].entries, reply.streams[0].entries, now, old(State()))
      ensures closing == old(closing)
    {
      if PendingGuard(reply) {
        thrown := PendingBatch(r, reply.streams[0].entries, now);
        more := thrown.None?;
      } else {
        more, thrown := false, None;
      }
    }

    /** The pending loop: read this consumer's pending entries from position 0
        until the guard fails or something throws. */
    method PendingPhase(r: Reader, now: int) returns (thrown: Option<ConsumerError>)
      modifies this, redis
      ensures Processed(State(), thrown) == PendingPhaseSpec(options, r, closing, old(State()))
      ensures closing == old(closing)
    {
      thrown := None;
      var more := true;
      while more && !closing
        invariant closing == old(closing)
        invariant more ==> thrown.None? && State() == old(State())
        invariant !more ==> Processed(State(), thrown) == PendingPhaseSpec(options, r, closing, old(State()))
        decreases if more then 1 else 0
      {
        var read := redis.ReadGroupPending(r.key, r.group, r.consumer, BatchCount(options));
        if read.ReadError? {
          thrown := Some(StoreError(read.message));
          more := false;
        } else {
          PendingBranchUnreachable(options, r, State());
          more, thrown := PendingStep(r, read.reply, now);
        }
      }
    }

    /** `trimStream`, at time `now`. */
    method TrimStream(key: string, now: int) returns (thrown: Option<ConsumerError>)
      modifies this, redis
      ensures Processed(State(), thrown) == TrimSpec(options, key, now, old(State()))
      ensures closing == old(closing)
    {
      thrown := None;
      if lastTrim + TrimIntervalMs(options) > now {
        return;
      }
      lastTrim := now;
      var cutoff := Cutoff(options, now);
      var oldest := redis.RangeFirst(key);
      if |oldest| > 0 {
        var ts := TimestampOf(oldest[0].id);
        if ts.Some? && ts.value < cutoff {
          var t := redis.TrimMinId(key, CutoffId(cutoff));
          if t.Error? {
            thrown := Some(StoreError(t.message));
          }
        }
      }
    }

    /** The loop over new entries: read with `>` and process until a read
        returns nothing or something throws. */
    method NewPhase(r: Reader) returns (thrown: Option<ConsumerError>)
      modifies this, redis
      ensures Processed(State(), thrown) == NewPhaseSpec(codec, options, r, closing, old(State()))
      ensures closing == old(closing)
    {
      thrown := None;
      var reading := true;
      while reading && !closing
        invariant closing == old(closing)
        invariant reading ==> thrown.None? && NewPhaseSpec(codec, options, r, closing, old(State())) == NewPhaseSpec(codec, options, r, closing, State())
        invariant !reading ==> Processed(State(), thrown) == NewPhaseSpec(codec, options, r, closing, old(State()))
        decreases Undelivered(redis.db, r.key, r.group), if reading then 1 else 0
      {
        ghost var before := redis.db;
        var read := redis.ReadGroupNew(r.key, r.group, r.consumer, BatchCount(options));
        if read.ReadError? {
          thrown := Some(StoreError(read.message));
          reading := false;
        } else if !NewGuard(read.reply) {
          reading := false;
        } else {
          ReadNewShrinks(before, r.key, r.group, r.consumer, BatchCount(options));
          thrown := ProcessMessages(r, read.reply.streams[0].entries);
          reading := thrown.None?;
        }
      }
    }

    /** One pass of the outer loop; an exception skips the rest of the pass
        and is emitted by the `catch`. */
    method Iteration(r: Reader, now: int)
      modifies this, redis
      ensures State() == IterationSpec(codec, options, r, closing, now, old(State()))
      ensures closing == old(closing)
    {
      var thrown := PendingPhase(r, now);
      if thrown.None? {
        thrown := TrimStream(r.key, now);
      }
      if thrown.None? {
        thrown := NewPhase(r);
      }
      errors := errors + Thrown(thrown);
    }

    /** `consume(group, cb)` under the consumer name `consumerName`: create the
        group, then run one pass per reading of `clock` until closed. */
    method Consume(group: string, consumerName: string, cb: (Value, Value) -> bool, clock: seq<int>)
      modifies this, redis
      ensures State() == ConsumeSpec(codec, options, Reader(name, group, consumerName, cb), closing, clock, old(State()))
      ensures closing == old(closing)
    {
      GroupCreationNeverRethrows(redis.db, name, group);
      var created := redis.CreateGroup(name, group);
      var g := GroupOutcomeOf(created);
      errors := errors + RethrownErrors(g);
      if !g.Rethrown? {
        Loop(Reader(name, group, consumerName, cb), clock);
      }
    }

    /** `while (!this.closing)`: one iteration per reading of `clock`. */
    method Loop(r: Reader, clock: seq<int>)
      modifies this, redis
      ensures State() == LoopSpec(codec, options, r, closing, clock, old(State()))
      ensures closing == old(closing)
    {
      ghost var start := State();
      var k := 0;
      while k < |clock| && !closing
        invariant 0 <= k <= |clock|
        invariant closing == old(closing)
        invariant LoopSpec(codec, options, r, closing, clock, start) == LoopSpec(codec, options, r, closing, clock[k..], State())
      {
        assert clock[k..][1..] == clock[k + 1..];
        Iteration(r, clock[k]);
        k := k + 1;
      }
    }

    method Close()
      modifies this
      ensures closing
      ensures lastTrim == old(lastTrim) && calls == old(calls) && errors == old(errors)
    {
      closing := true;
    }

    method GetLength() returns (n: nat)
      ensures n == XLen(redis.db, name)
    {
      n := redis.Len(name);
    }
  }
}
