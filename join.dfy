/** The join object. Its store (slots, completion flags, expiries), its
    timeout queue and its target queue are fields that the worker handlers
    update in place; each handler is proved to perform exactly the transition
    `JoinSpec` gives it. */
module JoinEngine {
  import opened Optional
  import opened Values
  import JS = JoinSpec

  class Join {
    const config: JS.Config
    var slots: map<string, Value>
    var flags: map<string, string>
    var expiries: map<string, Expiry>
    var timeouts: seq<JS.TimeoutJob>
    var target: seq<Value>

    function State(): JS.State
      reads this
    {
      JS.State(slots, flags, expiries, timeouts, target)
    }

    constructor(config: JS.Config)
      ensures this.config == config && State() == JS.Empty
    {
      this.config := config;
      slots, flags, expiries, timeouts, target := map[], map[], map[], [], [];
    }

    /** `storeData(source, data)`. */
    method StoreData(s: JS.Source, data: Value)
      modifies this
      ensures State() == JS.StoreData(config, old(State()), s, data)
    {
      var joinKey := KeyString(s.getJoinKey(data));
      var storeKey := JS.SlotKey(config.name, joinKey, s.queue);
      slots := slots[storeKey := data];
      var timeout := if config.timeout.Some? && config.timeout.value != 0 then config.timeout.value else 1000 * 60 * 60;
      expiries := expiries[storeKey := Seconds(timeout * 2)];
    }

    /** `evaluateJoin(joinKey, terminate)`: returns the result when it completed the key. */
    method Evaluate(joinKey: Value, terminate: bool) returns (result: Option<Value>)
      modifies this
      ensures State() == JS.Evaluate(config, old(State()), joinKey, terminate).state
      ensures result == JS.Evaluate(config, old(State()), joinKey, terminate).result
    {
      var key := KeyString(joinKey);
      var completionKey := JS.CompletionKey(config.name, key);
      if completionKey in flags {
        return None;
      }
      var allStored := JS.Gather(config, State(), key, config.sources);
      var timeout := if config.timeout.Some? && config.timeout.value != 0 then config.timeout.value else 1000 * 60 * 60;
      if |allStored| == |config.sources| || terminate {
        var r := config.onComplete(allStored);
        flags := flags[completionKey := "1"];
        expiries := expiries[completionKey := Seconds(timeout * 2)];
        return Some(r);
      }
      if |allStored| == 1 {
        timeouts := timeouts + [JS.TimeoutJob(joinKey, timeout)];
      }
      return None;
    }

    /** `target.add('completed', result)` when the result is truthy. */
    method Publish(result: Option<Value>)
      modifies this
      ensures State() == old(State()).(target := JS.Publish(old(target), result))
    {
      if result.Some? && Truthy(result.value) {
        target := target + [result.value];
      }
    }

    /** A source worker's handler for one job. */
    method OnSourceJob(s: JS.Source, data: Value)
      modifies this
      ensures State() == JS.Run(config, old(State()), JS.SourceJob(s, data)).state
    {
      JS.SourceJobRun(config, State(), s, data);
      StoreData(s, data);
      var result := Evaluate(s.getJoinKey(data), false);
      Publish(result);
    }

    /** The timeout worker's handler for one fired timeout job. */
    method OnTimeoutJob(job: JS.TimeoutJob)
      modifies this
      ensures State() == JS.Run(config, old(State()), JS.TimeoutFired(job)).state
    {
      JS.RunCons(config, State(), JS.Eval(job.joinKey, true), []);
      var result := Evaluate(job.joinKey, true);
      Publish(result);
    }
  }
}
