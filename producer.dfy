/** The stream producer: one entry per `produce`, with the payload and the job
    options as two encoded fields. */
module StreamProducer {
  import opened Optional
  import opened Values
  import opened RedisStreams
  import opened ConsumerSpec

  /** `opts || {}`. */
  function OrEmpty(opts: Value): (r: Value)
    ensures Truthy(opts) ==> r == opts
    ensures !Truthy(opts) ==> r == Obj(map[])
    ensures Truthy(r)
  {
    if Truthy(opts) then opts else Obj(map[])
  }

  /** The field list of a produced entry: `data` then `opts`. */
  function EntryFields(codec: Codec, data: Value, opts: Value): seq<string>
  {
    ["data", codec.encode(data), "opts", codec.encode(OrEmpty(opts))]
  }

  /** The consumer's decoder sees exactly the two fields of a produced entry,
      and with a lossless codec gets back the payload and `opts || {}`. */
  lemma ProducedEntryDecodes(codec: Codec, data: Value, opts: Value)
    requires Lossless(codec)
    ensures
      var rec := FieldRecord(EntryFields(codec, data, opts));
      && rec.Keys == {"data", "opts"}
      && DecodeField(codec, rec, "data") == Some(data)
      && DecodeField(codec, rec, "opts") == Some(OrEmpty(opts))
  {
    var f := EntryFields(codec, data, opts);
    FieldRecordAppendPair([], "data", codec.encode(data));
    assert [] + ["data", codec.encode(data)] == f[..2];
    FieldRecordAppendPair(f[..2], "opts", codec.encode(OrEmpty(opts)));
    assert f[..2] + ["opts", codec.encode(OrEmpty(opts))] == f;
    assert "data" != "opts";
  }

  class Producer {
    const redis: Redis
    /** The stream written, `this.name`. */
    const name: string
    const codec: Codec

    constructor(redis: Redis, streamName: string, codec: Codec)
      ensures this.redis == redis && name == streamName && this.codec == codec
    {
      this.redis := redis;
      name := streamName;
      this.codec := codec;
    }

    /** `produce(data, opts)` at time `now`: `XADD name * data … opts …`. */
    method Produce(data: Value, opts: Value, now: nat)
      modifies redis
      ensures redis.db == XAdd(old(redis.db), name, now, EntryFields(codec, data, opts)).db
    {
      var _ := redis.Add(name, now, EntryFields(codec, data, opts));
    }
  }

  /** Two produces in a row append two entries, in that order, with
      increasing ids, and leave the stream valid. */
  lemma ProducesKeepOrder(db: Store, name: string, codec: Codec, d1: Value, o1: Value, t1: nat, d2: Value, o2: Value, t2: nat)
    requires Valid(db)
    ensures
      var a1 := XAdd(db, name, t1, EntryFields(codec, d1, o1));
      var a2 := XAdd(a1.db, name, t2, EntryFields(codec, d2, o2));
      && Valid(a2.db)
      && StreamAt(a2.db, name).entries
         == StreamAt(db, name).entries + [Entry(a1.id, EntryFields(codec, d1, o1)), Entry(a2.id, EntryFields(codec, d2, o2))]
      && Before(a1.id, a2.id)
  {
    var a1 := XAdd(db, name, t1, EntryFields(codec, d1, o1));
    XAddAppends(db, name, t1, EntryFields(codec, d1, o1));
    XAddAppends(a1.db, name, t2, EntryFields(codec, d2, o2));
    var s1 := StreamAt(a1.db, name);
    assert s1.entries[|s1.entries| - 1].id == a1.id;
    assert !Before(s1.lastId, a1.id);
  }

  /** With nothing undelivered, the new-entries phase reads nil once and
      ends without changing anything. */
  lemma NewPhaseIdle(codec: Codec, o: Options, r: Reader, st: CState)
    requires r.key in st.db && r.group in st.db[r.key].groups
    requires Undelivered(st.db, r.key, r.group) == 0
    ensures NewPhaseSpec(codec, o, r, false, st) == Processed(st, None)
  {
  }

  /** After a produce onto a caught-up group, a `>` read hands out exactly the
      new entry, and afterwards nothing is undelivered. */
  lemma ReadAfterProduce(db: Store, key: string, group: string, consumer: string, count: int, fields: seq<string>, now: nat)
    requires Valid(db)
    requires key in db && group in db[key].groups
    requires !Before(db[key].lastId, db[key].groups[group].lastDelivered)
    requires Undelivered(db, key, group) == 0
    ensures
      var a := XAdd(db, key, now, fields);
      var read := XReadGroupNew(a.db, key, group, consumer, count);
      && read.ReadOk?
      && read.reply == Streams([StreamReply(key, Replies([Entry(a.id, fields)]))])
      && key in read.db && group in read.db[key].groups
      && Undelivered(read.db, key, group) == 0
  {
    var a := XAdd(db, key, now, fields);
    XAddAppends(db, key, now, fields);
    var s := db[key];
    var g := s.groups[group];
    var e := Entry(a.id, fields);
    var s' := a.db[key];
    assert s'.entries == s.entries + [e];
    AfterAppend(s.entries, e, g.lastDelivered);
    assert After(s'.entries, g.lastDelivered) == [e];
    assert Take([e], count) == [e];
    var read := XReadGroupNew(a.db, key, group, consumer, count);
    assert read.db[key].entries == s'.entries;
    assert read.db[key].groups[group].lastDelivered == a.id;
    ValidAfterAdd(s, s', e);
    AfterNone(s'.entries, a.id);
  }

  /** Processing the one produced entry invokes the callback with the original
      payload and options, and throws nothing. */
  lemma ProcessProduced(codec: Codec, r: Reader, st: CState, id: EntryId, data: Value, opts: Value)
    requires Lossless(codec)
    ensures
      var ok := r.cb(data, OrEmpty(opts));
      var p := ProcessSpec(codec, r, Replies([Entry(id, EntryFields(codec, data, opts))]), st);
      && p.thrown.None?
      && p.state.calls == st.calls + [Call(r.group, IdString(id), data, OrEmpty(opts), ok)]
      && p.state.errors == st.errors + (if ok then [] else [CallbackFailed(IdString(id))])
      && (r.key in st.db && r.group in st.db[r.key].groups ==> r.key in p.state.db && r.group in p.state.db[r.key].groups)
  {
    var es := Replies([Entry(id, EntryFields(codec, data, opts))]);
    if r.key in st.db && r.group in st.db[r.key].groups {
      XAckRemoves(st.db, r.key, r.group, id);
    }
    ProducedEntryDecodes(codec, data, opts);
    ParseIdString(id);
    assert es[0] == ReplyEntry(IdString(id), EntryFields(codec, data, opts));
    assert es[1..] == [];
  }

  /** An entry produced while a group is caught up is handed by that group's
      next new-entries phase to the callback exactly once, with the original
      payload and `opts || {}`; the phase ends with nothing undelivered, and a
      failed callback is emitted as an error. */
  lemma ProducedEntryIsConsumed(codec: Codec, o: Options, r: Reader, st: CState, data: Value, opts: Value, now: nat)
    requires Lossless(codec)
    requires Valid(st.db)
    requires r.key in st.db && r.group in st.db[r.key].groups
    requires !Before(st.db[r.key].lastId, st.db[r.key].groups[r.group].lastDelivered)
    requires Undelivered(st.db, r.key, r.group) == 0
    ensures
      var a := XAdd(st.db, r.key, now, EntryFields(codec, data, opts));
      var ok := r.cb(data, OrEmpty(opts));
      var p := NewPhaseSpec(codec, o, r, false, st.(db := a.db));
      && p.thrown.None?
      && p.state.calls == st.calls + [Call(r.group, IdString(a.id), data, OrEmpty(opts), ok)]
      && p.state.errors == st.errors + (if ok then [] else [CallbackFailed(IdString(a.id))])
      && Undelivered(p.state.db, r.key, r.group) == 0
  {
    var fields := EntryFields(codec, data, opts);
    var a := XAdd(st.db, r.key, now, fields);
    var st1 := st.(db := a.db);
    ReadAfterProduce(st.db, r.key, r.group, r.consumer, BatchCount(o), fields, now);
    var read := XReadGroupNew(a.db, r.key, r.group, r.consumer, BatchCount(o));
    ProcessProduced(codec, r, st1.(db := read.db), a.id, data, opts);
    var p := ProcessSpec(codec, r, read.reply.streams[0].entries, st1.(db := read.db));
    NewPhaseOneBatch(codec, o, r, st1);
    NewPhaseIdle(codec, o, r, p.state);
  }

  /** A read that hands out a batch which is processed without throwing is
      followed by another read. */
  lemma NewPhaseOneBatch(codec: Codec, o: Options, r: Reader, st: CState)
    requires
      var read := XReadGroupNew(st.db, r.key, r.group, r.consumer, BatchCount(o));
      read.ReadOk? && NewGuard(read.reply)
    requires
      var read := XReadGroupNew(st.db, r.key, r.group, r.consumer, BatchCount(o));
      ProcessSpec(codec, r, read.reply.streams[0].entries, st.(db := read.db)).thrown.None?
    ensures
      var read := XReadGroupNew(st.db, r.key, r.group, r.consumer, BatchCount(o));
      NewPhaseSpec(codec, o, r, false, st)
        == NewPhaseSpec(codec, o, r, false, ProcessSpec(codec, r, read.reply.streams[0].entries, st.(db := read.db)).state)
  {
  }

  /** After an append, no entry is after the new id. */
  lemma ValidAfterAdd(s: Stream, s': Stream, e: Entry)
    requires ValidStream(s) && Before(s.lastId, e.id) && s'.entries == s.entries + [e]
    ensures forall i :: 0 <= i < |s'.entries| ==> !Before(e.id, s'.entries[i].id)
  {
    forall i | 0 <= i < |s'.entries| ensures !Before(e.id, s'.entries[i].id) {
      if i < |s.entries| {
        assert !Before(s.lastId, s.entries[i].id);
      }
    }
  }
}
