/** What one stream consumer does, as functions over the store and the
    consumer's observable history: the callbacks it invoked and the errors it
    emitted. `Consumer` in consumer.dfy is proved to follow these functions. */
module ConsumerSpec {
  import opened Optional
  import opened Values
  import opened Decimal
  import opened RedisStreams

  // ---------------------------------------------------------------------
  // Options

  /** The router options the consumer reads; an absent option is `None`. */
  datatype Options = Options(
    batchSize: Option<int>,
    blockTimeMs: Option<int>,
    maxRetentionMs: Option<int>,
    trimIntervalMs: Option<int>,
    optsOverride: Option<Value -> Value>)

  const NoOptions: Options := Options(None, None, None, None, None)

  /** `x || d` on an optional number: absent or zero gives `d`. */
  function NumberOr(x: Option<int>, d: int): int
  {
    if x.Some? && x.value != 0 then x.value else d
  }

  const DefaultRetentionMs: int := 1000 * 60 * 60 * 24
  const DefaultTrimIntervalMs: int := 60000

  /** `batchSize || 1`, the COUNT of every read. */
  function BatchCount(o: Options): int
  {
    NumberOr(o.batchSize, 1)
  }

  /** `maxRetentionMs || 86400000`, as the pending branch computes it. */
  function RetentionMs(o: Options): int
  {
    NumberOr(o.maxRetentionMs, DefaultRetentionMs)
  }

  function TrimIntervalMs(o: Options): int
  {
    NumberOr(o.trimIntervalMs, DefaultTrimIntervalMs)
  }

  /** `now - maxRetentionMs || 86400000`, parsed as `(now - maxRetentionMs) || 86400000`:
      an absent option makes the difference `NaN`, and both `NaN` and 0 are falsy. */
  function Cutoff(o: Options, now: int): int
  {
    if o.maxRetentionMs.None? || now - o.maxRetentionMs.value == 0 then DefaultRetentionMs
    else now - o.maxRetentionMs.value
  }

  /** Without `maxRetentionMs` the trim cutoff is the fixed instant 86400000
      (one day after the epoch), whatever the time; with it, the cutoff is
      `now - maxRetentionMs` except when that is exactly 0. */
  lemma CutoffPrecedence(o: Options, now: int)
    ensures o.maxRetentionMs.None? ==> Cutoff(o, now) == 86400000
    ensures o.maxRetentionMs.Some? && now != o.maxRetentionMs.value ==> Cutoff(o, now) == now - o.maxRetentionMs.value
    ensures o.maxRetentionMs.Some? && now == o.maxRetentionMs.value ==> Cutoff(o, now) == 86400000
  {
  }

  /** The id `${cutoff}-0` passed to XTRIM MINID. */
  function CutoffId(cutoff: int): string
  {
    IntToString(cutoff) + "-0"
  }

  /** The store reads that id as `cutoff-0` when the cutoff is not negative,
      and rejects it otherwise. */
  lemma CutoffIdParses(cutoff: int)
    ensures cutoff >= 0 ==> ParseId(CutoffId(cutoff)) == Some(EntryId(cutoff, 0))
    ensures cutoff < 0 ==> ParseId(CutoffId(cutoff)) == None
  {
    if cutoff >= 0 {
      var a := NatToString(cutoff);
      DigitsHaveNoDash(a);
      DashSplit(a, "0");
      assert CutoffId(cutoff) == a + "-" + "0";
      assert CutoffId(cutoff)[|a|] == '-';
      ParseNatToString(cutoff);
      assert ParseNat("0") == Some(0);
    } else {
      assert CutoffId(cutoff)[0] == '-';
      assert BeforeDash(CutoffId(cutoff)) == [];
    }
  }

  // ---------------------------------------------------------------------
  // Entry decoding

  /** `Number(id.split('-')[0])`: the milliseconds part of an id, `NaN` (None)
      when it is not a number. */
  function TimestampOf(id: string): Option<int>
  {
    JsNumber(BeforeDash(id))
  }

  /** The timestamp of a store-issued id is its milliseconds part. */
  lemma TimestampOfIdString(id: EntryId)
    ensures TimestampOf(IdString(id)) == Some(id.ms)
  {
    DigitsHaveNoDash(NatToString(id.ms));
    DashSplit(NatToString(id.ms), NatToString(id.sq));
    JsNumberOfNatToString(id.ms);
  }

  /** The record built from an alternating field/value list: pairs are read
      front to back, so a later duplicate key overwrites an earlier one; a
      trailing key without a value maps to `undefined` (None). */
  function FieldRecord(fields: seq<string>): map<string, Option<string>>
    decreases |fields|
  {
    if fields == [] then map[]
    else if |fields| % 2 == 1 then FieldRecord(fields[..|fields| - 1])[fields[|fields| - 1] := None]
    else FieldRecord(fields[..|fields| - 2])[fields[|fields| - 2] := Some(fields[|fields| - 1])]
  }

  /** Appending a pair sets that key, overriding any earlier value. */
  lemma FieldRecordAppendPair(fields: seq<string>, k: string, v: string)
    requires |fields| % 2 == 0
    ensures FieldRecord(fields + [k, v]) == FieldRecord(fields)[k := Some(v)]
  {
    var f := fields + [k, v];
    EvenPlusTwo(|fields|);
    assert |f| % 2 == 0 && f != [];
    assert f[..|f| - 2] == fields;
    assert f[|f| - 2] == k && f[|f| - 1] == v;
    assert FieldRecord(f) == FieldRecord(f[..|f| - 2])[f[|f| - 2] := Some(f[|f| - 1])];
  }

  lemma EvenPlusTwo(n: nat)
    requires n % 2 == 0
    ensures (n + 2) % 2 == 0
  {
  }

  /** The keys of the record are exactly the strings at even positions. */
  lemma {:induction false} FieldRecordKeys(fields: seq<string>)
    ensures forall k :: k in FieldRecord(fields) <==> exists j :: 0 <= j < |fields| && j % 2 == 0 && fields[j] == k
    decreases |fields|
  {
    if fields != [] {
      var last := if |fields| % 2 == 1 then |fields| - 1 else |fields| - 2;
      var pre := fields[..last];
      FieldRecordKeys(pre);
      forall k ensures k in FieldRecord(fields) <==> exists j :: 0 <= j < |fields| && j % 2 == 0 && fields[j] == k {
        if k in FieldRecord(pre) {
          var j :| 0 <= j < |pre| && j % 2 == 0 && pre[j] == k;
          assert fields[j] == k;
        }
        if exists j :: 0 <= j < |fields| && j % 2 == 0 && fields[j] == k {
          var j :| 0 <= j < |fields| && j % 2 == 0 && fields[j] == k;
          if j != last {
            assert pre[j] == k;
          }
        }
      }
    }
  }

  /** `JSON.parse(jobData[name])`: fails when the field is missing, has no
      value, or does not decode. */
  function DecodeField(codec: Codec, rec: map<string, Option<string>>, name: string): Option<Value>
  {
    if name in rec && rec[name].Some? then codec.decode(rec[name].value) else None
  }

  // ---------------------------------------------------------------------
  // Consumer state and history

  /** One invocation of the callback: the group, the entry id, the decoded
      payload and options, and whether the callback succeeded. */
  datatype Call = Call(group: string, id: string, data: Value, opts: Value, ok: bool)

  /** An `error` event: a failed callback, an entry that could not be
      decoded, or an error reply from the store. */
  datatype ConsumerError = CallbackFailed(id: string) | Undecodable(id: string) | StoreError(message: string)

  /** The consumer's `lastTrim`, the store, and the history of callbacks and errors. */
  datatype CState = CState(lastTrim: int, db: Store, calls: seq<Call>, errors: seq<ConsumerError>)

  /** The state after a step, and the exception it threw, if any. */
  datatype Processed = Processed(state: CState, thrown: Option<ConsumerError>)

  /** The stream, group, consumer name and callback of one `consume` loop. */
  datatype Reader = Reader(key: string, group: string, consumer: string, cb: (Value, Value) -> bool)

  /** The number of entries not yet delivered to the group. */
  function Undelivered(db: Store, key: string, group: string): nat
  {
    if key in db && group in db[key].groups then |After(db[key].entries, db[key].groups[group].lastDelivered)| else 0
  }

  // ---------------------------------------------------------------------
  // processMessages

  /** One entry: decode `data` and `opts` (a failure throws out of the batch),
      invoke the callback, and acknowledge only when it succeeded; a failed
      callback or acknowledgement is emitted as an error and the batch goes on. */
  function ProcessOne(codec: Codec, r: Reader, e: ReplyEntry, st: CState): (p: Processed)
    ensures Undelivered(p.state.db, r.key, r.group) == Undelivered(st.db, r.key, r.group)
    ensures p.state.lastTrim == st.lastTrim
    ensures st.calls <= p.state.calls && st.errors <= p.state.errors
  {
    var jobData := FieldRecord(e.fields);
    var data := DecodeField(codec, jobData, "data");
    var opts := DecodeField(codec, jobData, "opts");
    if data.None? || opts.None? then Processed(st, Some(Undecodable(e.id)))
    else
      var ok := r.cb(data.value, opts.value);
      var st1 := st.(calls := st.calls + [Call(r.group, e.id, data.value, opts.value, ok)]);
      if !ok then Processed(st1.(errors := st.errors + [CallbackFailed(e.id)]), None)
      else
        match XAck(st.db, r.key, r.group, e.id)
        case AckError(m) => Processed(st1.(errors := st.errors + [StoreError(m)]), None)
        case AckOk(db, _) => Processed(st1.(db := db), None)
  }

  /** `processMessages` over the entries of the first stream of a reply. */
  function ProcessSpec(codec: Codec, r: Reader, es: seq<ReplyEntry>, st: CState): (p: Processed)
    ensures Undelivered(p.state.db, r.key, r.group) == Undelivered(st.db, r.key, r.group)
    ensures p.state.lastTrim == st.lastTrim
    ensures st.calls <= p.state.calls && st.errors <= p.state.errors
    decreases |es|
  {
    if es == [] then Processed(st, None)
    else
      var p := ProcessOne(codec, r, es[0], st);
      if p.thrown.Some? then p else ProcessSpec(codec, r, es[1..], p.state)
  }

  /** One entry gives one call, for that entry and group, unless it cannot be
      decoded, in which case it is thrown and nothing is called. */
  lemma ProcessOneHistory(codec: Codec, r: Reader, e: ReplyEntry, st: CState)
    ensures
      var p := ProcessOne(codec, r, e, st);
      && (p.thrown.None? ==>
            |p.state.calls| == |st.calls| + 1 && p.state.calls[|st.calls|].id == e.id
            && p.state.calls[|st.calls|].group == r.group)
      && (p.thrown.Some? ==> p.state.calls == st.calls && p.thrown.value == Undecodable(e.id))
  {
  }

  /** The callback sees the entries of a batch in order, one call each, for
      the group being read; the batch stops exactly at the first entry that
      cannot be decoded, which is what it throws. */
  lemma {:induction false} ProcessSpecHistory(codec: Codec, r: Reader, es: seq<ReplyEntry>, st: CState)
    ensures
      var p := ProcessSpec(codec, r, es, st);
      var n := |p.state.calls| - |st.calls|;
      && n <= |es|
      && (forall j :: |st.calls| <= j < |p.state.calls| ==>
            p.state.calls[j].id == es[j - |st.calls|].id && p.state.calls[j].group == r.group)
      && (p.thrown.None? ==> n == |es|)
      && (p.thrown.Some? ==> n < |es| && p.thrown.value == Undecodable(es[n].id))
    decreases |es|
  {
    if es != [] {
      var p1 := ProcessOne(codec, r, es[0], st);
      ProcessOneHistory(codec, r, es[0], st);
      if p1.thrown.None? {
        ProcessSpecHistory(codec, r, es[1..], p1.state);
      }
    }
  }

  /** The group's pending entries list (PEL), empty when the stream or group is missing. */
  function Pel(db: Store, key: string, group: string): map<EntryId, string>
  {
    if key in db && group in db[key].groups then db[key].groups[group].pending else map[]
  }

  /** The ids whose callback succeeded. */
  function AckedIds(calls: seq<Call>): set<string>
  {
    set c | c in calls && c.ok :: c.id
  }

  /** The PEL without the entries whose id is in `acked`. */
  function Unacked(pel: map<EntryId, string>, acked: set<string>): map<EntryId, string>
  {
    map eid | eid in pel && IdString(eid) !in acked :: pel[eid]
  }

  lemma UnackedTwice(pel: map<EntryId, string>, a: set<string>, b: set<string>)
    ensures Unacked(Unacked(pel, a), b) == Unacked(pel, a + b)
  {
  }

  lemma AckedIdsAppend(a: seq<Call>, b: seq<Call>)
    ensures AckedIds(a + b) == AckedIds(a) + AckedIds(b)
  {
    forall c | c in a + b ensures c in a || c in b {
    }
  }

  /** Acknowledging an id the store printed always succeeds and takes exactly
      that id out of the PEL. */
  lemma XAckPel(db: Store, key: string, group: string, id: EntryId)
    ensures XAck(db, key, group, IdString(id)).AckOk?
    ensures Pel(XAck(db, key, group, IdString(id)).db, key, group) == Unacked(Pel(db, key, group), {IdString(id)})
  {
    ParseIdString(id);
    var pel := Pel(db, key, group);
    forall eid | eid in pel && IdString(eid) == IdString(id) ensures eid == id {
      IdStringInjective(eid, id);
    }
  }

  /** One entry leaves the PEL exactly when its callback succeeded. */
  lemma ProcessOneAcks(codec: Codec, r: Reader, x: Entry, st: CState)
    ensures
      var p := ProcessOne(codec, r, ReplyEntry(IdString(x.id), x.fields), st);
      Pel(p.state.db, r.key, r.group) == Unacked(Pel(st.db, r.key, r.group), AckedIds(p.state.calls[|st.calls|..]))
  {
    var e := ReplyEntry(IdString(x.id), x.fields);
    var p := ProcessOne(codec, r, e, st);
    var pel := Pel(st.db, r.key, r.group);
    var added := p.state.calls[|st.calls|..];
    var jobData := FieldRecord(e.fields);
    var data := DecodeField(codec, jobData, "data");
    var opts := DecodeField(codec, jobData, "opts");
    if data.None? || opts.None? {
      assert added == [];
      assert AckedIds(added) == {};
      assert Unacked(pel, {}) == pel;
    } else {
      var ok := r.cb(data.value, opts.value);
      var call := Call(r.group, e.id, data.value, opts.value, ok);
      assert added == [call];
      if !ok {
        assert AckedIds(added) == {};
        assert Unacked(pel, {}) == pel;
      } else {
        assert AckedIds(added) == {IdString(x.id)};
        XAckPel(st.db, r.key, r.group, x.id);
      }
    }
  }

  /** Processing a batch read from the stream removes from the PEL exactly the
      entries whose callback succeeded: a failed callback, or an entry never
      reached because an earlier one could not be decoded, stays pending. */
  lemma {:induction false} ProcessSpecAcks(codec: Codec, r: Reader, batch: seq<Entry>, st: CState)
    ensures
      var p := ProcessSpec(codec, r, Replies(batch), st);
      Pel(p.state.db, r.key, r.group) == Unacked(Pel(st.db, r.key, r.group), AckedIds(p.state.calls[|st.calls|..]))
    decreases |batch|
  {
    var es := Replies(batch);
    var p := ProcessSpec(codec, r, es, st);
    var pel := Pel(st.db, r.key, r.group);
    if batch == [] {
      assert p.state.calls[|st.calls|..] == [];
      assert AckedIds([]) == {};
    } else {
      assert es[0] == ReplyEntry(IdString(batch[0].id), batch[0].fields);
      var p1 := ProcessOne(codec, r, es[0], st);
      ProcessOneAcks(codec, r, batch[0], st);
      var first := p1.state.calls[|st.calls|..];
      if p1.thrown.None? {
        assert es[1..] == Replies(batch[1..]);
        ProcessSpecAcks(codec, r, batch[1..], p1.state);
        var rest := p.state.calls[|p1.state.calls|..];
        assert p.state.calls[|st.calls|..] == first + rest;
        AckedIdsAppend(first, rest);
        UnackedTwice(pel, AckedIds(first), AckedIds(rest));
      }
    }
  }

  /** The `error` events failed callbacks emit: one per call that did not
      succeed, in call order. */
  function Failures(calls: seq<Call>): (r: seq<ConsumerError>)
    ensures |r| <= |calls|
  {
    if calls == [] then []
    else (if calls[0].ok then [] else [CallbackFailed(calls[0].id)]) + Failures(calls[1..])
  }

  /** One entry read from the stream emits an error exactly when its
      callback failed. */
  lemma ProcessOneErrors(codec: Codec, r: Reader, x: Entry, st: CState)
    ensures
      var p := ProcessOne(codec, r, ReplyEntry(IdString(x.id), x.fields), st);
      var added := p.state.calls[|st.calls|..];
      && p.state.errors == st.errors + Failures(added)
      && (p.thrown.None? ==> |added| == 1)
      && (p.thrown.Some? ==> added == [])
  {
    XAckPel(st.db, r.key, r.group, x.id);
    var e := ReplyEntry(IdString(x.id), x.fields);
    var p := ProcessOne(codec, r, e, st);
    var added := p.state.calls[|st.calls|..];
    if p.thrown.None? {
      assert added == [p.state.calls[|st.calls|]];
      assert Failures(added) == (if added[0].ok then [] else [CallbackFailed(added[0].id)]) + Failures([]);
    } else {
      assert added == [];
    }
  }

  /** Processing a batch read from the stream emits exactly one
      `CallbackFailed` per failed call, in order, and nothing else: the
      acknowledgement of a store-printed id never fails. */
  lemma {:induction false} ProcessSpecErrors(codec: Codec, r: Reader, batch: seq<Entry>, st: CState)
    ensures
      var p := ProcessSpec(codec, r, Replies(batch), st);
      p.state.errors == st.errors + Failures(p.state.calls[|st.calls|..])
    decreases |batch|
  {
    var es := Replies(batch);
    var p := ProcessSpec(codec, r, es, st);
    if batch == [] {
      assert p == Processed(st, None);
      assert p.state.calls[|st.calls|..] == [];
      assert st.errors + Failures([]) == st.errors;
    } else {
      var x := batch[0];
      assert es[0] == ReplyEntry(IdString(x.id), x.fields);
      var p1 := ProcessOne(codec, r, es[0], st);
      ProcessOneErrors(codec, r, x, st);
      var first := p1.state.calls[|st.calls|..];
      if p1.thrown.None? {
        assert es[1..] == Replies(batch[1..]);
        ProcessSpecErrors(codec, r, batch[1..], p1.state);
        assert p == ProcessSpec(codec, r, es[1..], p1.state);
        var rest := p.state.calls[|p1.state.calls|..];
        assert p.state.calls[|st.calls|..] == first + rest;
        FailuresStep(st.errors, p1.state.errors, p.state.errors, first, rest);
      } else {
        assert p == p1;
        assert p.state.calls[|st.calls|..] == [];
        assert p.state.errors == st.errors + Failures([]);
      }
    }
  }

  lemma FailuresStep(before: seq<ConsumerError>, mid: seq<ConsumerError>, after: seq<ConsumerError>,
                     first: seq<Call>, rest: seq<Call>)
    requires |first| == 1
    requires mid == before + Failures(first) && after == mid + Failures(rest)
    ensures after == before + Failures(first + rest)
  {
    assert (first + rest)[1..] == rest;
    assert first[1..] == [];
    assert Failures(first + rest) == Failures(first) + Failures(rest);
  }

  // ---------------------------------------------------------------------
  // The pending phase

  /** The shape of a `[streamName, entries]` pair: its JavaScript length is 2. */
  function PairLength(s: StreamReply): nat
  {
    2
  }

  /** `pendingResult && pendingResult.length > 1 && pendingResult[1].length > 0`. */
  predicate PendingGuard(reply: ReadReply)
  {
    reply.Streams? && |reply.streams| > 1 && PairLength(reply.streams[1]) > 0
  }

  /** `newResult && newResult.length > 0 && newResult[0].length > 0`. */
  predicate NewGuard(reply: ReadReply)
  {
    reply.Streams? && |reply.streams| > 0 && PairLength(reply.streams[0]) > 0
  }

  /** The pending branch: for every id of the first stream, an id whose
      timestamp is within the retention reprocesses the whole first stream of
      the reply; any other id (including one whose timestamp is not a number)
      is acknowledged without a callback. */
  function PendingBatchSpec(codec: Codec, o: Options, r: Reader, all: seq<ReplyEntry>, rest: seq<ReplyEntry>, now: int, st: CState): (p: Processed)
    ensures st.calls <= p.state.calls && st.errors <= p.state.errors
    decreases |rest|
  {
    if rest == [] then Processed(st, None)
    else
      var ts := TimestampOf(rest[0].id);
      if ts.Some? && now - ts.value <= RetentionMs(o) then
        var p := ProcessSpec(codec, r, all, st);
        if p.thrown.Some? then p else PendingBatchSpec(codec, o, r, all, rest[1..], now, p.state)
      else
        match XAck(st.db, r.key, r.group, rest[0].id)
        case AckError(m) => Processed(st, Some(StoreError(m)))
        case AckOk(db, _) => PendingBatchSpec(codec, o, r, all, rest[1..], now, st.(db := db))
  }

  /** The ids of a batch, as the store prints them. */
  function IdsOf(batch: seq<Entry>): set<string>
  {
    set x | x in batch :: IdString(x.id)
  }

  /** Pending entries all older than the retention are acknowledged without a
      callback: no call, no error, and exactly their ids leave the PEL. */
  lemma {:induction false} PendingExpiredAcked(codec: Codec, o: Options, r: Reader, all: seq<ReplyEntry>,
                                               batch: seq<Entry>, now: int, st: CState)
    requires forall i :: 0 <= i < |batch| ==> now - batch[i].id.ms > RetentionMs(o)
    ensures
      var p := PendingBatchSpec(codec, o, r, all, Replies(batch), now, st);
      && p.thrown.None?
      && p.state.calls == st.calls && p.state.errors == st.errors && p.state.lastTrim == st.lastTrim
      && Pel(p.state.db, r.key, r.group) == Unacked(Pel(st.db, r.key, r.group), IdsOf(batch))
    decreases |batch|
  {
    var pel := Pel(st.db, r.key, r.group);
    if batch == [] {
      assert IdsOf(batch) == {};
      assert Unacked(pel, {}) == pel;
    } else {
      var x := batch[0];
      var rest := Replies(batch);
      assert rest[0].id == IdString(x.id);
      assert rest[1..] == Replies(batch[1..]);
      TimestampOfIdString(x.id);
      XAckPel(st.db, r.key, r.group, x.id);
      var st1 := st.(db := XAck(st.db, r.key, r.group, IdString(x.id)).db);
      PendingExpiredAcked(codec, o, r, all, batch[1..], now, st1);
      UnackedTwice(pel, {IdString(x.id)}, IdsOf(batch[1..]));
      assert IdsOf(batch) == {IdString(x.id)} + IdsOf(batch[1..]) by {
        forall y | y in batch ensures y == x || y in batch[1..] {
          var i :| 0 <= i < |batch| && batch[i] == y;
          if i > 0 { assert batch[1..][i - 1] == y; }
        }
      }
    }
  }

  /** An entry whose callback input decodes, so `processMessages` does not
      throw on it. */
  predicate Decodable(codec: Codec, e: ReplyEntry)
  {
    var rec := FieldRecord(e.fields);
    DecodeField(codec, rec, "data").Some? && DecodeField(codec, rec, "opts").Some?
  }

  /** A batch of decodable entries is processed without throwing, with one
      call per entry. */
  lemma {:induction false} ProcessSpecDecodable(codec: Codec, r: Reader, es: seq<ReplyEntry>, st: CState)
    requires forall i :: 0 <= i < |es| ==> Decodable(codec, es[i])
    ensures
      var p := ProcessSpec(codec, r, es, st);
      p.thrown.None? && |p.state.calls| == |st.calls| + |es|
    decreases |es|
  {
    if es != [] {
      var p1 := ProcessOne(codec, r, es[0], st);
      assert |p1.state.calls| == |st.calls| + 1 && p1.thrown.None?;
      ProcessSpecDecodable(codec, r, es[1..], p1.state);
    }
  }

  /** An id within the retention reprocesses the whole reply and then goes
      on with the next id, unless that reprocessing threw. */
  lemma PendingRecentStep(codec: Codec, o: Options, r: Reader, all: seq<ReplyEntry>, rest: seq<ReplyEntry>, now: int, st: CState)
    requires rest != []
    requires TimestampOf(rest[0].id).Some? && now - TimestampOf(rest[0].id).value <= RetentionMs(o)
    ensures
      var p := ProcessSpec(codec, r, all, st);
      PendingBatchSpec(codec, o, r, all, rest, now, st)
        == if p.thrown.Some? then p else PendingBatchSpec(codec, o, r, all, rest[1..], now, p.state)
  {
  }

  /** When every pending id is within the retention and every entry
      decodes, the callback runs once per entry of the reply for each id:
      |rest| × |all| calls, and nothing is thrown. */
  lemma {:induction false} PendingRecentReprocesses(codec: Codec, o: Options, r: Reader, all: seq<ReplyEntry>,
                                                    rest: seq<ReplyEntry>, now: int, st: CState)
    requires forall i :: 0 <= i < |all| ==> Decodable(codec, all[i])
    requires forall i :: 0 <= i < |rest| ==>
      TimestampOf(rest[i].id).Some? && now - TimestampOf(rest[i].id).value <= RetentionMs(o)
    ensures
      var p := PendingBatchSpec(codec, o, r, all, rest, now, st);
      p.thrown.None? && |p.state.calls| == |st.calls| + |rest| * |all|
    decreases |rest|
  {
    if rest != [] {
      var p1 := ProcessSpec(codec, r, all, st);
      ProcessSpecDecodable(codec, r, all, st);
      PendingRecentStep(codec, o, r, all, rest, now, st);
      PendingRecentReprocesses(codec, o, r, all, rest[1..], now, p1.state);
      MulSucc(|rest[1..]|, |all|);
    }
  }

  lemma MulSucc(k: nat, m: nat)
    ensures (k + 1) * m == k * m + m
  {
  }

  /** The pending phase: one read from position 0, whose single-stream reply
      never passes the guard, so the phase ends after it. */
  function PendingPhaseSpec(o: Options, r: Reader, closing: bool, st: CState): Processed
  {
    if closing then Processed(st, None)
    else
      match XReadGroupPending(st.db, r.key, r.group, r.consumer, BatchCount(o))
      case ReadError(m) => Processed(st, Some(StoreError(m)))
      case ReadOk(db, _) => Processed(st.(db := db), None)
  }

  /** The pending branch is unreachable: every pending read is answered with
      exactly one stream, and the guard asks for more than one. Entries whose
      callback failed therefore stay pending and are never retried. */
  lemma PendingBranchUnreachable(o: Options, r: Reader, st: CState)
    ensures
      var read := XReadGroupPending(st.db, r.key, r.group, r.consumer, BatchCount(o));
      read.ReadOk? ==> !PendingGuard(read.reply) && read.db == st.db
  {
  }

  // ---------------------------------------------------------------------
  // trimStream

  /** `trimStream`: nothing before the interval has elapsed; otherwise record
      the time and, when the oldest entry's timestamp is below the cutoff,
      trim everything below `cutoff-0`. */
  function TrimSpec(o: Options, key: string, now: int, st: CState): Processed
  {
    if st.lastTrim + TrimIntervalMs(o) > now then Processed(st, None)
    else
      var st1 := st.(lastTrim := now);
      var cutoff := Cutoff(o, now);
      var oldest := XRangeFirst(st.db, key);
      if |oldest| > 0 && TimestampOf(oldest[0].id).Some? && TimestampOf(oldest[0].id).value < cutoff then
        match XTrimMinIdText(st.db, key, CutoffId(cutoff))
        case Error(m) => Processed(st1, Some(StoreError(m)))
        case Done(db) => Processed(st1.(db := db), None)
      else Processed(st1, None)
  }

  /** The trim decision: before the interval elapses nothing changes; after
      it, `lastTrim` becomes `now`, and the stream is trimmed, to exactly the
      entries at or above `cutoff-0`, only when it is not empty and its oldest
      entry is below the cutoff. Groups are never touched. */
  lemma TrimDecision(o: Options, key: string, now: int, st: CState)
    requires Valid(st.db)
    ensures
      var p := TrimSpec(o, key, now, st);
      var s := StreamAt(st.db, key);
      var cutoff := Cutoff(o, now);
      && (st.lastTrim + TrimIntervalMs(o) > now ==> p == Processed(st, None))
      && (st.lastTrim + TrimIntervalMs(o) <= now ==>
            && p.thrown.None?
            && p.state.lastTrim == now
            && p.state.calls == st.calls && p.state.errors == st.errors
            && (if s.entries != [] && s.entries[0].id.ms < cutoff
                then p.state.db == XTrimMinId(st.db, key, EntryId(cutoff, 0))
                else p.state.db == st.db))
  {
    var s := StreamAt(st.db, key);
    if s.entries != [] {
      TimestampOfIdString(s.entries[0].id);
      if s.entries[0].id.ms < Cutoff(o, now) {
        CutoffIdParses(Cutoff(o, now));
      }
    }
  }

  // ---------------------------------------------------------------------
  // The new-entries phase

  lemma {:induction false} AfterMonotone(es: seq<Entry>, c: EntryId, c': EntryId)
    requires !Before(c', c)
    ensures |After(es, c')| <= |After(es, c)|
    decreases |es|
  {
    if es != [] {
      AfterMonotone(es[1..], c, c');
    }
  }

  /** Moving the cursor onto an entry that was undelivered strictly shrinks
      what is undelivered. */
  lemma {:induction false} AfterShrinks(es: seq<Entry>, c: EntryId, e: Entry)
    requires e in After(es, c)
    ensures |After(es, e.id)| < |After(es, c)|
    decreases |es|
  {
    if es[0] == e {
      AfterMonotone(es[1..], c, e.id);
    } else {
      AfterShrinks(es[1..], c, e);
    }
  }

  /** A `>` read that returns entries shrinks what is undelivered. */
  lemma ReadNewShrinks(db: Store, key: string, group: string, consumer: string, count: int)
    requires XReadGroupNew(db, key, group, consumer, count).ReadOk?
    requires XReadGroupNew(db, key, group, consumer, count).reply.Streams?
    ensures Undelivered(XReadGroupNew(db, key, group, consumer, count).db, key, group) < Undelivered(db, key, group)
  {
    var s := db[key];
    var g := s.groups[group];
    var batch := Take(After(s.entries, g.lastDelivered), count);
    assert batch[|batch| - 1] in After(s.entries, g.lastDelivered);
    AfterShrinks(s.entries, g.lastDelivered, batch[|batch| - 1]);
  }

  /** The new-entries phase: read with `>` and process, until a read returns
      nothing or something throws. */
  function NewPhaseSpec(codec: Codec, o: Options, r: Reader, closing: bool, st: CState): (p: Processed)
    ensures st.calls <= p.state.calls && st.errors <= p.state.errors
    decreases Undelivered(st.db, r.key, r.group)
  {
    if closing then Processed(st, None)
    else
      var read := XReadGroupNew(st.db, r.key, r.group, r.consumer, BatchCount(o));
      match read
      case ReadError(m) => Processed(st, Some(StoreError(m)))
      case ReadOk(db, reply) =>
        if !NewGuard(reply) then Processed(st.(db := db), None)
        else
          ReadNewShrinks(st.db, r.key, r.group, r.consumer, BatchCount(o));
          var p := ProcessSpec(codec, r, reply.streams[0].entries, st.(db := db));
          if p.thrown.Some? then p else NewPhaseSpec(codec, o, r, closing, p.state)
  }

  /** When the new-entries phase ends without an error, every entry of the
      stream has been delivered to the group. */
  lemma {:induction false} NewPhaseDrains(codec: Codec, o: Options, r: Reader, st: CState)
    ensures
      var p := NewPhaseSpec(codec, o, r, false, st);
      p.thrown.None? ==> Undelivered(p.state.db, r.key, r.group) == 0
    decreases Undelivered(st.db, r.key, r.group)
  {
    var read := XReadGroupNew(st.db, r.key, r.group, r.consumer, BatchCount(o));
    if read.ReadOk? {
      if NewGuard(read.reply) {
        ReadNewShrinks(st.db, r.key, r.group, r.consumer, BatchCount(o));
        var p := ProcessSpec(codec, r, read.reply.streams[0].entries, st.(db := read.db));
        if p.thrown.None? {
          NewPhaseDrains(codec, o, r, p.state);
        }
      }
    }
  }

  // ---------------------------------------------------------------------
  // One iteration of the outer loop

  function Thrown(t: Option<ConsumerError>): seq<ConsumerError>
  {
    if t.Some? then [t.value] else []
  }

  /** Pending phase, trim, new phase; an exception from any of them skips the
      rest and is emitted as an error by the loop's `catch`. */
  function IterationSpec(codec: Codec, o: Options, r: Reader, closing: bool, now: int, st: CState): (r': CState)
    ensures st.calls <= r'.calls && st.errors <= r'.errors
  {
    var p := PendingPhaseSpec(o, r, closing, st);
    var t := if p.thrown.Some? then p else TrimSpec(o, r.key, now, p.state);
    var n := if t.thrown.Some? then t else NewPhaseSpec(codec, o, r, closing, t.state);
    n.state.(errors := n.state.errors + Thrown(n.thrown))
  }

  /** The outer loop, one iteration per reading of the clock. */
  function LoopSpec(codec: Codec, o: Options, r: Reader, closing: bool, clock: seq<int>, st: CState): (r': CState)
    ensures st.calls <= r'.calls && st.errors <= r'.errors
    decreases |clock|
  {
    if clock == [] || closing then st
    else LoopSpec(codec, o, r, closing, clock[1..], IterationSpec(codec, o, r, closing, clock[0], st))
  }

  /** The result of `XGROUP CREATE` as `consume` sees it. */
  datatype GroupOutcome = Created(db: Store) | AlreadyExists | Rethrown(message: string)

  /** Only an error whose message contains `BUSYGROUP` is swallowed. */
  function GroupOutcomeOf(r: Outcome): GroupOutcome
  {
    match r
    case Done(db) => Created(db)
    case Error(m) => if Contains(m, "BUSYGROUP") then AlreadyExists else Rethrown(m)
  }

  /** `s.includes(part)`. */
  predicate Contains(s: string, part: string)
    decreases |s|
  {
    if |s| < |part| then false else s[..|part|] == part || Contains(s[1..], part)
  }

  function RethrownErrors(g: GroupOutcome): seq<ConsumerError>
  {
    if g.Rethrown? then [StoreError(g.message)] else []
  }

  /** Creating the group either succeeds, or finds it existing and swallows
      the BUSYGROUP error; the store never produces another error for it, so
      `consume` always reaches its loop with the group in place. */
  lemma GroupCreationNeverRethrows(db: Store, key: string, group: string)
    ensures
      var g := GroupOutcomeOf(XGroupCreate(db, key, group));
      && !g.Rethrown?
      && (g.AlreadyExists? <==> group in StreamAt(db, key).groups)
      && (g.Created? ==> key in g.db && g.db[key].groups[group] == Group(Zero, map[])
                          && g.db[key].entries == StreamAt(db, key).entries)
  {
    if group in StreamAt(db, key).groups {
      BusyGroupIsRecognised();
    }
  }

  /** The store's BUSYGROUP reply contains the text `consume` looks for. */
  lemma BusyGroupIsRecognised()
    ensures Contains(BusyGroup, "BUSYGROUP")
  {
    var s := BusyGroup;
    assert |s| >= 9;
    assert s[0] == 'B' && s[1] == 'U' && s[2] == 'S' && s[3] == 'Y' && s[4] == 'G';
    assert s[5] == 'R' && s[6] == 'O' && s[7] == 'U' && s[8] == 'P';
    assert s[..9] == "BUSYGROUP";
  }

  /** `consume`: create the group, then run the loop; a rethrown creation
      error is emitted and no iteration runs. */
  function ConsumeSpec(codec: Codec, o: Options, r: Reader, closing: bool, clock: seq<int>, st: CState): (r': CState)
    ensures st.calls <= r'.calls && st.errors <= r'.errors
  {
    var g := GroupOutcomeOf(XGroupCreate(st.db, r.key, r.group));
    var st1 := st.(db := if g.Created? then g.db else st.db, errors := st.errors + RethrownErrors(g));
    if g.Rethrown? then st1 else LoopSpec(codec, o, r, closing, clock, st1)
  }
}
