/** The router: one stream per source queue, filled by a queue-to-stream
    worker, and one consumer per stream with one group per target queue. */
module StreamRouter {
  import opened Optional
  import opened Values
  import opened RedisStreams
  import opened ConsumerSpec
  import opened StreamConsumer
  import opened StreamProducer
  import opened RouterSpec

  /** The worker that copies each job of a source queue into its stream
      (`queue-to-stream-worker`): its processor produces `job.data` and
      `job.opts`. */
  class QueueToStreamWorker {
    const queue: string
    const producer: Producer
    var closed: bool

    constructor(queue: string, streamName: string, redis: Redis, codec: Codec)
      ensures this.queue == queue && !closed
      ensures producer.redis == redis && producer.name == streamName && producer.codec == codec
    {
      this.queue := queue;
      producer := new Producer(redis, streamName, codec);
      closed := false;
    }

    /** The processor, run on one job of the source queue at time `now`. */
    method Process(data: Value, opts: Value, now: nat)
      modifies producer.redis
      ensures producer.redis.db == XAdd(old(producer.redis.db), producer.name, now, EntryFields(producer.codec, data, opts)).db
    {
      producer.Produce(data, opts, now);
    }

    method Close()
      modifies this
      ensures closed
    {
      closed := true;
    }
  }

  /** A consumer and worker made by `run` for `source`: the consumer reads
      the source's stream with the router's options and the worker feeds
      that stream from the source queue. */
  ghost predicate Made(c: Consumer, w: QueueToStreamWorker, source: string, o: Options)
  {
    && c.name == StreamName(source) && c.options == o
    && w.queue == source && w.producer.name == c.name
  }

  /** A consumer and worker that have done nothing yet. */
  predicate Idle(c: Consumer, w: QueueToStreamWorker)
    reads c, w
  {
    c.lastTrim == 0 && !c.closing && c.calls == [] && c.errors == [] && !w.closed
  }

  /** Consumers, workers and promises come in threes, all on `redis` and
      `codec`, each worker feeding its consumer's stream; `closed` and every
      registration point at an existing consumer and target. */
  ghost predicate Wired(redis: Redis, codec: Codec, cs: seq<Consumer>, ws: seq<QueueToStreamWorker>,
                        resolved: seq<bool>, closed: Option<nat>, subs: seq<Subscription>, targets: seq<string>)
  {
    && |resolved| == |cs| == |ws|
    && (forall i :: 0 <= i < |cs| ==>
          && cs[i].redis == redis && cs[i].codec == codec
          && ws[i].producer.redis == redis && ws[i].producer.codec == codec
          && ws[i].producer.name == cs[i].name)
    && (closed.Some? ==> closed.value < |cs|)
    && (forall k :: 0 <= k < |subs| ==> subs[k].consumer < |cs| && subs[k].target < |targets|)
  }

  /** Adding a consumer and worker made for `source`, with its promise and
      its registrations, keeps the router wired. */
  lemma WiredStep(redis: Redis, codec: Codec, cs: seq<Consumer>, ws: seq<QueueToStreamWorker>,
                  resolved: seq<bool>, closed: Option<nat>, subs: seq<Subscription>, targets: seq<string>,
                  source: string, c: Consumer, w: QueueToStreamWorker, registered: seq<Subscription>)
    requires Wired(redis, codec, cs, ws, resolved, closed, subs, targets)
    requires c.redis == redis && c.codec == codec
    requires w.producer.redis == redis && w.producer.codec == codec && w.producer.name == c.name
    requires registered == SourceSubscriptions(|cs|, source, targets)
    ensures Wired(redis, codec, cs + [c], ws + [w], resolved + [false], Some(|cs|), subs + registered, targets)
  {
    var subs' := subs + registered;
    forall k | 0 <= k < |subs'| ensures subs'[k].consumer < |cs| + 1 && subs'[k].target < |targets| {
      if k >= |subs| {
        assert subs'[k] == registered[k - |subs|];
      }
    }
  }

  /** The router's consumers, workers, registrations and promises when
      `run` starts. */
  datatype RunStart = RunStart(consumers: seq<Consumer>, workers: seq<QueueToStreamWorker>,
                               subscriptions: seq<Subscription>, closed: Option<nat>, resolved: seq<bool>)

  /** What `run` has built after its first `i` sources: one consumer and
      worker each, made for its source, the registrations of those sources,
      `closed` on the last new promise, and one unresolved promise each. */
  ghost predicate Built(start: RunStart, sources: seq<string>, i: nat, o: Options, targets: seq<string>,
                        cs: seq<Consumer>, ws: seq<QueueToStreamWorker>, subs: seq<Subscription>,
                        closed: Option<nat>, resolved: seq<bool>)
  {
    var n0 := |start.consumers|;
    && i <= |sources|
    && |cs| == |ws| == n0 + i
    && cs[..n0] == start.consumers && ws[..n0] == start.workers
    && (forall k :: n0 <= k < n0 + i ==> Made(cs[k], ws[k], sources[k - n0], o))
    && subs == start.subscriptions + AllSubscriptions(n0, sources, i, targets)
    && closed == (if i == 0 then start.closed else Some(n0 + i - 1))
    && resolved == start.resolved + Unresolved(i)
  }

  /** One more source: its consumer and worker are appended, `closed` moves
      to its promise and its registrations follow the earlier ones. */
  lemma BuiltStep(start: RunStart, sources: seq<string>, i: nat, o: Options, targets: seq<string>,
                  cs: seq<Consumer>, ws: seq<QueueToStreamWorker>, subs: seq<Subscription>,
                  closed: Option<nat>, resolved: seq<bool>,
                  c: Consumer, w: QueueToStreamWorker, registered: seq<Subscription>)
    requires Built(start, sources, i, o, targets, cs, ws, subs, closed, resolved)
    requires i < |sources| && Made(c, w, sources[i], o)
    requires registered == SourceSubscriptions(|cs|, sources[i], targets)
    ensures Built(start, sources, i + 1, o, targets, cs + [c], ws + [w], subs + registered, Some(|cs|), resolved + [false])
  {
    var n0 := |start.consumers|;
    assert (cs + [c])[..n0] == cs[..n0];
    assert (ws + [w])[..n0] == ws[..n0];
    AppendAssociates(start.subscriptions, AllSubscriptions(n0, sources, i, targets), registered);
  }

  class Router {
    const redis: Redis
    const codec: Codec
    var sourceQueues: seq<string>
    /** The target queues, by name. */
    var targetQueues: seq<string>
    var opts: Options
    var consumers: seq<Consumer>
    var workers: seq<QueueToStreamWorker>
    /** `closedCount`. */
    var closedCount: nat
    /** Which consumer's promise `this.closed` holds (None: never assigned). */
    var closed: Option<nat>
    /** Whether the promise created for each consumer has resolved. */
    var resolved: seq<bool>
    /** The `consume` registrations made by `run`. */
    var subscriptions: seq<Subscription>
    /** The jobs added to each target queue. */
    var jobs: map<string, seq<Job>>

    /** Consumers, workers and promises are created together, one per source,
        on the router's store; registrations point at existing consumers
        and targets. */
    ghost predicate Valid()
      reads this
    {
      Wired(redis, codec, consumers, workers, resolved, closed, subscriptions, targetQueues)
    }

    /** Whether `await this.closed` in `run` has returned. */
    predicate RunResolved()
      reads this
      requires closed.Some? ==> closed.value < |resolved|
    {
      closed.None? || resolved[closed.value]
    }

    /** The options start as an object with no router options in it. */
    constructor(redis: Redis, codec: Codec)
      ensures Valid()
      ensures this.redis == redis && this.codec == codec
      ensures sourceQueues == [] && targetQueues == [] && opts == NoOptions
      ensures consumers == [] && workers == [] && subscriptions == [] && jobs == map[]
      ensures closedCount == 0 && closed == None && resolved == []
    {
      this.redis := redis;
      this.codec := codec;
      sourceQueues, targetQueues, opts := [], [], NoOptions;
      consumers, workers, subscriptions, jobs := [], [], [], map[];
      closedCount, closed, resolved := 0, None, [];
    }

    method AddSources(names: seq<string>) returns (r: Router)
      requires Valid()
      modifies this
      ensures Valid() && r == this
      ensures sourceQueues == old(sourceQueues) + names
      ensures targetQueues == old(targetQueues) && opts == old(opts) && consumers == old(consumers)
      ensures workers == old(workers) && subscriptions == old(subscriptions) && jobs == old(jobs)
      ensures closedCount == old(closedCount) && closed == old(closed) && resolved == old(resolved)
    {
      sourceQueues := sourceQueues + names;
      r := this;
    }

    method AddTargets(names: seq<string>) returns (r: Router)
      requires Valid()
      modifies this
      ensures Valid() && r == this
      ensures targetQueues == old(targetQueues) + names
      ensures sourceQueues == old(sourceQueues) && opts == old(opts) && consumers == old(consumers)
      ensures workers == old(workers) && subscriptions == old(subscriptions) && jobs == old(jobs)
      ensures closedCount == old(closedCount) && closed == old(closed) && resolved == old(resolved)
    {
      targetQueues := targetQueues + names;
      r := this;
    }

    method SetOptions(o: Options) returns (r: Router)
      requires Valid()
      modifies this
      ensures Valid() && r == this
      ensures opts == o
      ensures sourceQueues == old(sourceQueues) && targetQueues == old(targetQueues) && consumers == old(consumers)
      ensures workers == old(workers) && subscriptions == old(subscriptions) && jobs == old(jobs)
      ensures closedCount == old(closedCount) && closed == old(closed) && resolved == old(resolved)
    {
      opts := o;
      r := this;
    }

    /** `run`: per source, a consumer on `bullmq__router_<source>` with the
        router's options, a worker feeding that stream, a fresh `closed`
        promise, and one `consume` registration per target under group
        `<source>:<target>`. */
    method Run()
      requires Valid()
      modifies this
      ensures Valid()
      ensures sourceQueues == old(sourceQueues) && targetQueues == old(targetQueues) && opts == old(opts)
      ensures jobs == old(jobs) && closedCount == old(closedCount)
      ensures |consumers| == old(|consumers|) + |sourceQueues| && consumers[..old(|consumers|)] == old(consumers)
      ensures workers[..old(|workers|)] == old(workers)
      ensures forall k :: old(|consumers|) <= k < |consumers| ==>
        Made(consumers[k], workers[k], sourceQueues[k - old(|consumers|)], opts)
      ensures subscriptions == old(subscriptions) + AllSubscriptions(old(|consumers|), sourceQueues, |sourceQueues|, targetQueues)
      ensures closed == if sourceQueues == [] then old(closed) else Some(|consumers| - 1)
      ensures resolved == old(resolved) + Unresolved(|sourceQueues|)
    {
      var sources := sourceQueues;
      ghost var start := RunStart(consumers, workers, subscriptions, closed, resolved);
      var i := 0;
      while i < |sources|
        invariant 0 <= i <= |sources|
        invariant Valid()
        invariant Built(start, sources, i, opts, targetQueues, consumers, workers, subscriptions, closed, resolved)
        invariant sourceQueues == sources && targetQueues == old(targetQueues) && opts == old(opts)
        invariant jobs == old(jobs) && closedCount == old(closedCount)
      {
        var consumer, worker := StartSource(sources[i]);
        Register(sources[i], consumer, worker, start, sources, i);
        i := i + 1;
      }
    }

    /** The consumer and worker `run` creates for `source`. */
    method StartSource(source: string) returns (consumer: Consumer, worker: QueueToStreamWorker)
      ensures fresh(consumer) && fresh(worker)
      ensures Made(consumer, worker, source, opts) && Idle(consumer, worker)
      ensures consumer.redis == redis && consumer.codec == codec
      ensures worker.producer.redis == redis && worker.producer.codec == codec && worker.producer.name == consumer.name
    {
      var streamName := StreamName(source);
      consumer := new Consumer(redis, streamName, Some(opts), codec);
      worker := new QueueToStreamWorker(source, streamName, redis, codec);
    }

    /** The rest of one pass of `run`'s loop, for the source queue
        `sources[i]`: record the consumer and worker, point `closed` at the
        new promise, and register one `consume` per target. */
    method Register(source: string, consumer: Consumer, worker: QueueToStreamWorker,
                    ghost start: RunStart, ghost sources: seq<string>, ghost i: nat)
      requires Valid() && Built(start, sources, i, opts, targetQueues, consumers, workers, subscriptions, closed, resolved)
      requires i < |sources| && sources[i] == source && Made(consumer, worker, source, opts)
      requires consumer.redis == redis && consumer.codec == codec
      requires worker.producer.redis == redis && worker.producer.codec == codec && worker.producer.name == consumer.name
      modifies this
      ensures Valid() && Built(start, sources, i + 1, opts, targetQueues, consumers, workers, subscriptions, closed, resolved)
      ensures sourceQueues == old(sourceQueues) && targetQueues == old(targetQueues) && opts == old(opts)
      ensures jobs == old(jobs) && closedCount == old(closedCount)
    {
      var registered := Registrations(|consumers|, source, targetQueues);
      BuiltStep(start, sources, i, opts, targetQueues, consumers, workers, subscriptions, closed, resolved,
                consumer, worker, registered);
      WiredStep(redis, codec, consumers, workers, resolved, closed, subscriptions, targetQueues,
                source, consumer, worker, registered);
      consumers, workers, closed, resolved, subscriptions :=
        consumers + [consumer], workers + [worker], Some(|consumers|), resolved + [false], subscriptions + registered;
    }

    /** The inner loop of `run`: one `consume` registration per target, in
        order, on consumer `c` under the group `<source>:<target>`. */
    static method Registrations(c: nat, source: string, targets: seq<string>) returns (registered: seq<Subscription>)
      ensures registered == SourceSubscriptions(c, source, targets)
    {
      registered := [];
      var j := 0;
      while j < |targets|
        invariant 0 <= j <= |targets|
        invariant registered == SourceSubscriptions(c, source, targets)[..j]
      {
        assert SourceSubscriptions(c, source, targets)[..j + 1]
            == SourceSubscriptions(c, source, targets)[..j] + [Subscription(c, j, GroupName(source, targets[j]))];
        registered := registered + [Subscription(c, j, GroupName(source, targets[j]))];
        j := j + 1;
      }
      assert SourceSubscriptions(c, source, targets)[..j] == SourceSubscriptions(c, source, targets);
    }

    /** Worker `i` handles one job of its source queue at time `now`: the job
        is appended to the source's stream. */
    method Forward(i: nat, data: Value, opts: Value, now: nat)
      requires Valid() && i < |workers|
      modifies redis
      ensures redis.db == XAdd(old(redis.db), consumers[i].name, now, EntryFields(codec, data, opts)).db
    {
      workers[i].Process(data, opts, now);
    }

    /** Registration `k` consumes under the consumer name `consumerName`, one
        pass per reading of `clock`; `accepts` says whether the target queue
        accepts an add. Every successful callback adds one job to the target,
        in order, with the options merged at callback time. */
    method Pump(k: nat, consumerName: string, accepts: (Value, Value) -> bool, clock: seq<int>)
      requires Valid() && k < |subscriptions|
      modifies this, redis, consumers[subscriptions[k].consumer]
      ensures Valid()
      ensures sourceQueues == old(sourceQueues) && targetQueues == old(targetQueues) && opts == old(opts)
      ensures consumers == old(consumers) && workers == old(workers) && subscriptions == old(subscriptions)
      ensures closedCount == old(closedCount) && closed == old(closed) && resolved == old(resolved)
      ensures
        var s := subscriptions[k];
        var c := consumers[s.consumer];
        && c.State() == ConsumeSpec(codec, c.options, Reader(c.name, s.group, consumerName, accepts), c.closing, clock, old(c.State()))
        && c.closing == old(c.closing)
        && |old(c.calls)| <= |c.calls|
        && jobs == old(jobs)[targetQueues[s.target] := old(Queued(targetQueues[s.target])) + Forwarded(c.calls[|old(c.calls)|..], opts)]
    {
      var s := subscriptions[k];
      var c := consumers[s.consumer];
      var target := targetQueues[s.target];
      var before := c.calls;
      c.Consume(s.group, consumerName, accepts, clock);
      jobs := jobs[target := Queued(target) + Forwarded(c.calls[|before|..], opts)];
    }

    /** The jobs added so far to the target queue named `target`. */
    function Queued(target: string): seq<Job>
      reads this
    {
      if target in jobs then jobs[target] else []
    }

    /** The `close` handler of consumer `i`. */
    method OnConsumerClosed(i: nat)
      requires Valid() && i < |consumers|
      modifies this
      ensures Valid()
      ensures closedCount == old(closedCount) + 1
      ensures resolved == if closedCount == |consumers| then old(resolved)[i := true] else old(resolved)
      ensures sourceQueues == old(sourceQueues) && targetQueues == old(targetQueues) && opts == old(opts)
      ensures consumers == old(consumers) && workers == old(workers) && subscriptions == old(subscriptions)
      ensures jobs == old(jobs) && closed == old(closed)
    {
      closedCount := closedCount + 1;
      if closedCount == |consumers| {
        resolved := resolved[i := true];
      }
    }

    /** `close`: every worker, then every consumer in creation order; each
        consumer emits `close` as it closes. */
    method Close()
      requires Valid()
      modifies this, workers, consumers
      ensures Valid()
      ensures forall i :: 0 <= i < |workers| ==> workers[i].closed
      ensures forall i :: 0 <= i < |consumers| ==> consumers[i].closing
      ensures closedCount == old(closedCount) + |consumers|
      ensures resolved == CloseEvents(old(closedCount), |consumers|, old(resolved), Upto(|consumers|))
      ensures sourceQueues == old(sourceQueues) && targetQueues == old(targetQueues) && opts == old(opts)
      ensures consumers == old(consumers) && workers == old(workers) && subscriptions == old(subscriptions)
      ensures jobs == old(jobs) && closed == old(closed)
      ensures forall i :: 0 <= i < |consumers| ==>
        consumers[i].calls == old(consumers[i].calls) && consumers[i].errors == old(consumers[i].errors)
        && consumers[i].lastTrim == old(consumers[i].lastTrim)
    {
      CloseWorkers();
      CloseConsumers();
    }

    method CloseWorkers()
      requires Valid()
      modifies workers
      ensures forall i :: 0 <= i < |workers| ==> workers[i].closed
    {
      var i := 0;
      while i < |workers|
        invariant 0 <= i <= |workers|
        invariant forall k :: 0 <= k < i ==> workers[k].closed
      {
        workers[i].Close();
        i := i + 1;
      }
    }

    method CloseConsumers()
      requires Valid()
      modifies this, consumers
      ensures Valid()
      ensures forall i :: 0 <= i < |consumers| ==> consumers[i].closing
      ensures closedCount == old(closedCount) + |consumers|
      ensures resolved == CloseEvents(old(closedCount), |consumers|, old(resolved), Upto(|consumers|))
      ensures sourceQueues == old(sourceQueues) && targetQueues == old(targetQueues) && opts == old(opts)
      ensures consumers == old(consumers) && workers == old(workers) && subscriptions == old(subscriptions)
      ensures jobs == old(jobs) && closed == old(closed)
      ensures forall i :: 0 <= i < |consumers| ==>
        consumers[i].calls == old(consumers[i].calls) && consumers[i].errors == old(consumers[i].errors)
        && consumers[i].lastTrim == old(consumers[i].lastTrim)
      ensures forall w :: w in workers ==> w.closed == old(w.closed)
    {
      var i := 0;
      while i < |consumers|
        invariant 0 <= i <= |consumers|
        invariant Valid()
        invariant forall k :: 0 <= k < i ==> consumers[k].closing
        invariant sourceQueues == old(sourceQueues) && targetQueues == old(targetQueues) && opts == old(opts)
        invariant consumers == old(consumers) && workers == old(workers) && subscriptions == old(subscriptions)
        invariant jobs == old(jobs) && closed == old(closed)
        invariant closedCount == old(closedCount) + i
        invariant forall k :: 0 <= k < |consumers| ==>
          consumers[k].calls == old(consumers[k].calls) && consumers[k].errors == old(consumers[k].errors)
          && consumers[k].lastTrim == old(consumers[k].lastTrim)
        invariant resolved == CloseEvents(old(closedCount), |consumers|, old(resolved), Upto(i))
      {
        assert Upto(i + 1)[..i] == Upto(i);
        consumers[i].Close();
        OnConsumerClosed(i);
        i := i + 1;
      }
    }
  }

  lemma AppendAssociates<T>(a: seq<T>, b: seq<T>, c: seq<T>)
    ensures a + b + c == a + (b + c)
  {
  }

  /** A router that ran over at least one source and is then closed with a
      zero count has its `run` return: the last consumer created is the last
      one closed. */
  lemma CloseAfterRunResolves(n: nat, resolved: seq<bool>)
    requires n > 0 && |resolved| == n
    ensures CloseEvents(0, n, resolved, Upto(n))[n - 1]
  {
    OnlyLastCloseResolves(n, resolved, Upto(n));
  }
}
