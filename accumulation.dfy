/** The accumulation object. Its store (lists, completion flags, expiries),
    its timeout queue and its target queue are fields that the worker
    handlers update in place; each handler is proved to perform exactly the
    transition `AccumulationSpec` gives it. */
module AccumulationEngine {
  import opened Optional
  import opened Values
  import AS = AccumulationSpec

  class Accumulation {
    const config: AS.Config
    var lists: map<string, seq<Value>>
    var flags: map<string, string>
    var expiries: map<string, Expiry>
    var timeouts: seq<AS.TimeoutJob>
    var target: seq<Value>

    /** The whole observable state. */
    function State(): AS.State
      reads this
    {
      AS.State(lists, flags, expiries, timeouts, target)
    }

    constructor(config: AS.Config)
      ensures this.config == config && State() == AS.Empty
    {
      this.config := config;
      lists, flags, expiries, timeouts, target := map[], map[], map[], [], [];
    }

    /** `storeData`. */
    method StoreData(data: Value)
      modifies this
      ensures State() == AS.StoreData(config, old(State()), data)
    {
      var groupKey := config.getGroupKey(data);
      if !Truthy(groupKey) {
        return;
      }
      var storeKey := AS.ValueKey(config.name, KeyString(groupKey));
      var stored := if storeKey in lists then lists[storeKey] else [];
      lists := lists[storeKey := [data] + stored];
      expiries := expiries[storeKey := Milliseconds(config.timeout * 2)];
    }

    /** `evaluate(groupKey, terminate)`: returns the result when it completed the group. */
    method Evaluate(groupKey: Value, terminate: bool) returns (result: Option<Value>)
      modifies this
      ensures State() == AS.Evaluate(config, old(State()), groupKey, terminate).state
      ensures result == AS.Evaluate(config, old(State()), groupKey, terminate).result
    {
      var key := KeyString(groupKey);
      var completionKey := AS.CompletionKey(config.name, key);
      if completionKey in flags {
        return None;
      }
      var storeKey := AS.ValueKey(config.name, key);
      var data := if storeKey in lists then lists[storeKey] else [];
      var storedLen := |data|;
      if terminate || (config.isComplete.Some? && config.isComplete.value(data)) {
        var r := config.onComplete(data);
        flags := flags[completionKey := "1"];
        expiries := expiries[completionKey := Milliseconds(config.timeout * 2)];
        return Some(r);
      }
      if storedLen == 1 {
        timeouts := timeouts + [AS.TimeoutJob(groupKey, config.timeout)];
      }
      return None;
    }

    /** `target?.add('completed', result)` when the result is truthy. */
    method Publish(result: Option<Value>)
      modifies this
      ensures State() == old(State()).(target := AS.Publish(config, old(target), result))
    {
      if result.Some? && Truthy(result.value) && config.hasTarget {
        target := target + [result.value];
      }
    }

    /** The source worker's handler for one job. */
    method OnSourceJob(data: Value)
      modifies this
      ensures State() == AS.Run(config, old(State()), AS.SourceJob(config, data)).state
    {
      AS.SourceJobRun(config, State(), data);
      var groupKey := config.getGroupKey(data);
      if !Truthy(groupKey) {
        return;
      }
      StoreData(data);
      var result := Evaluate(groupKey, false);
      Publish(result);
    }

    /** The timeout worker's handler for one fired timeout job. */
    method OnTimeoutJob(job: AS.TimeoutJob)
      modifies this
      ensures State() == AS.Run(config, old(State()), AS.TimeoutFired(job)).state
    {
      AS.RunCons(config, State(), AS.Eval(job.groupKey, true), []);
      var groupKey := job.groupKey;
      if !Truthy(groupKey) {
        return;
      }
      var result := Evaluate(groupKey, true);
      Publish(result);
    }
  }
}
