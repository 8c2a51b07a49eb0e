/** The part of the Redis stream data type that the router's producer and
    consumer rely on: entries with `ms-seq` ids assigned by `XADD *`, consumer
    groups with a delivered cursor and a pending-entries list (PEL), and the
    commands XADD, XGROUP CREATE, XREADGROUP, XACK, XRANGE, XTRIM MINID and
    XLEN. The store is a map from stream key to stream. */
module RedisStreams {
  import opened Optional
  import opened Decimal

  // ---------------------------------------------------------------------
  // Entry ids

  datatype EntryId = EntryId(ms: nat, sq: nat)

  /** Stream order: by milliseconds, then by sequence number. */
  predicate Before(a: EntryId, b: EntryId)
  {
    a.ms < b.ms || (a.ms == b.ms && a.sq < b.sq)
  }

  const Zero: EntryId := EntryId(0, 0)

  /** The id as the store prints it: `ms-seq`. */
  function IdString(id: EntryId): string
  {
    NatToString(id.ms) + "-" + NatToString(id.sq)
  }

  /** The text before the first '-' (all of it when there is none), which is
      element 0 of `split('-')`. */
  function BeforeDash(s: string): (r: string)
    ensures '-' !in r
    decreases |s|
  {
    if s == [] then [] else if s[0] == '-' then [] else [s[0]] + BeforeDash(s[1..])
  }

  /** The text after the first '-' (empty when there is none). */
  function AfterDash(s: string): string
    decreases |s|
  {
    if s == [] then [] else if s[0] == '-' then s[1..] else AfterDash(s[1..])
  }

  lemma {:induction false} DashSplit(a: string, b: string)
    requires '-' !in a
    ensures BeforeDash(a + "-" + b) == a && AfterDash(a + "-" + b) == b
    decreases |a|
  {
    if a != [] {
      assert (a + "-" + b)[1..] == a[1..] + "-" + b;
      DashSplit(a[1..], b);
    }
  }

  /** A complete id as XACK parses it: `ms-seq`, or `ms` alone meaning sequence 0. */
  function ParseId(s: string): Option<EntryId>
  {
    if '-' in s then
      match (ParseNat(BeforeDash(s)), ParseNat(AfterDash(s)))
      case (Some(ms), Some(sq)) => Some(EntryId(ms, sq))
      case _ => None
    else
      match ParseNat(s)
      case Some(ms) => Some(EntryId(ms, 0))
      case None => None
  }

  lemma DigitsHaveNoDash(s: string)
    requires AllDigits(s)
    ensures '-' !in s
  {
  }

  /** Printing an id and parsing it back gives the id. */
  lemma ParseIdString(id: EntryId)
    ensures ParseId(IdString(id)) == Some(id)
  {
    var a, b := NatToString(id.ms), NatToString(id.sq);
    DigitsHaveNoDash(a);
    DashSplit(a, b);
    assert IdString(id)[|a|] == '-';
    ParseNatToString(id.ms);
    ParseNatToString(id.sq);
  }

  /** Distinct ids print differently. */
  lemma IdStringInjective(a: EntryId, b: EntryId)
    requires IdString(a) == IdString(b)
    ensures a == b
  {
    ParseIdString(a);
    ParseIdString(b);
  }

  // ---------------------------------------------------------------------
  // Streams and groups

  datatype Entry = Entry(id: EntryId, fields: seq<string>)

  /** A consumer group: the last id delivered to it and its PEL, mapping each
      delivered but unacknowledged id to the consumer that received it. */
  datatype Group = Group(lastDelivered: EntryId, pending: map<EntryId, string>)

  datatype Stream = Stream(entries: seq<Entry>, lastId: EntryId, groups: map<string, Group>)

  const EmptyStream: Stream := Stream([], Zero, map[])

  type Store = map<string, Stream>

  function StreamAt(db: Store, key: string): Stream
  {
    if key in db then db[key] else EmptyStream
  }

  predicate Ordered(es: seq<Entry>)
  {
    forall i, j :: 0 <= i < j < |es| ==> Before(es[i].id, es[j].id)
  }

  /** Entry ids are increasing, above 0-0, and not above the last id issued. */
  predicate ValidStream(s: Stream)
  {
    && Ordered(s.entries)
    && forall i :: 0 <= i < |s.entries| ==> Before(Zero, s.entries[i].id) && !Before(s.lastId, s.entries[i].id)
  }

  predicate Valid(db: Store)
  {
    forall k :: k in db ==> ValidStream(db[k])
  }

  /** The entries after `cursor`, in stream order. */
  function After(es: seq<Entry>, cursor: EntryId): (r: seq<Entry>)
    ensures |r| <= |es|
    ensures forall e :: e in r ==> e in es && Before(cursor, e.id)
    decreases |es|
  {
    if es == [] then []
    else (if Before(cursor, es[0].id) then [es[0]] else []) + After(es[1..], cursor)
  }

  /** `COUNT n`: a non-positive count reads without limit. */
  function Take(es: seq<Entry>, count: int): (r: seq<Entry>)
    ensures r <= es
    ensures |r| == if count <= 0 || count >= |es| then |es| else count
  {
    if count <= 0 || count >= |es| then es else es[..count]
  }

  // ---------------------------------------------------------------------
  // Replies

  /** `[id, [field, value, ...]]`. */
  datatype ReplyEntry = ReplyEntry(id: string, fields: seq<string>)

  /** `[streamName, entries]`. */
  datatype StreamReply = StreamReply(stream: string, entries: seq<ReplyEntry>)

  /** The reply of XREADGROUP: nil, or one `[streamName, entries]` per stream read. */
  datatype ReadReply = Nil | Streams(streams: seq<StreamReply>)

  function Replies(es: seq<Entry>): (r: seq<ReplyEntry>)
    ensures |r| == |es|
    ensures forall i :: 0 <= i < |es| ==> r[i] == ReplyEntry(IdString(es[i].id), es[i].fields)
  {
    seq(|es|, i requires 0 <= i < |es| => ReplyEntry(IdString(es[i].id), es[i].fields))
  }

  const BusyGroup: string := "BUSYGROUP Consumer Group name already exists"
  const InvalidId: string := "ERR Invalid stream ID specified as stream command argument"

  function NoGroup(key: string, group: string): string
  {
    "NOGROUP No such key '" + key + "' or consumer group '" + group + "' in XREADGROUP with GROUP option"
  }

  // ---------------------------------------------------------------------
  // Commands

  /** The id `XADD key *` assigns at time `now`. */
  function NextId(last: EntryId, now: nat): (id: EntryId)
    ensures Before(last, id)
    ensures id.ms == if now > last.ms then now else last.ms
  {
    if now > last.ms then EntryId(now, 0) else EntryId(last.ms, last.sq + 1)
  }

  datatype Added = Added(db: Store, id: EntryId)

  /** `XADD key * field value ...`, creating the stream when it is missing. */
  function XAdd(db: Store, key: string, now: nat, fields: seq<string>): Added
  {
    var s := StreamAt(db, key);
    var id := NextId(s.lastId, now);
    Added(db[key := s.(entries := s.entries + [Entry(id, fields)], lastId := id)], id)
  }

  datatype Outcome = Done(db: Store) | Error(message: string)

  /** `XGROUP CREATE key group 0 MKSTREAM`. */
  function XGroupCreate(db: Store, key: string, group: string): Outcome
  {
    var s := StreamAt(db, key);
    if group in s.groups then Error(BusyGroup)
    else Done(db[key := s.(groups := s.groups[group := Group(Zero, map[])])])
  }

  datatype ReadResult = ReadOk(db: Store, reply: ReadReply) | ReadError(message: string)

  /** `XREADGROUP GROUP group consumer COUNT n STREAMS key >`: the next
      undelivered entries, which move the cursor and enter the PEL under
      `consumer`; nil when there are none. */
  function XReadGroupNew(db: Store, key: string, group: string, consumer: string, count: int): ReadResult
  {
    if key !in db || group !in db[key].groups then ReadError(NoGroup(key, group))
    else
      var s := db[key];
      var g := s.groups[group];
      var batch := Take(After(s.entries, g.lastDelivered), count);
      if batch == [] then ReadOk(db, Nil)
      else
        var g' := Group(batch[|batch| - 1].id, g.pending + map e | e in batch :: e.id := consumer);
        ReadOk(db[key := s.(groups := s.groups[group := g'])], Streams([StreamReply(key, Replies(batch))]))
  }

  /** The entries of `es` pending for `consumer`, in stream order. */
  function PendingOf(es: seq<Entry>, pending: map<EntryId, string>, consumer: string): (r: seq<Entry>)
    ensures forall e :: e in r ==> e in es
    decreases |es|
  {
    if es == [] then []
    else (if es[0].id in pending && pending[es[0].id] == consumer then [es[0]] else [])
         + PendingOf(es[1..], pending, consumer)
  }

  /** `XREADGROUP GROUP group consumer COUNT n STREAMS key 0`: the consumer's
      own pending entries, always as a reply for the one stream read. */
  function XReadGroupPending(db: Store, key: string, group: string, consumer: string, count: int): ReadResult
  {
    if key !in db || group !in db[key].groups then ReadError(NoGroup(key, group))
    else
      var s := db[key];
      var batch := Take(PendingOf(s.entries, s.groups[group].pending, consumer), count);
      ReadOk(db, Streams([StreamReply(key, Replies(batch))]))
  }

  datatype AckResult = AckOk(db: Store, count: nat) | AckError(message: string)

  /** `XACK key group id`: removes the id from the group's PEL. */
  function XAck(db: Store, key: string, group: string, id: string): AckResult
  {
    match ParseId(id)
    case None => AckError(InvalidId)
    case Some(eid) =>
      if key !in db || group !in db[key].groups then AckOk(db, 0)
      else
        var s := db[key];
        var g := s.groups[group];
        if eid in g.pending then
          AckOk(db[key := s.(groups := s.groups[group := g.(pending := g.pending - {eid})])], 1)
        else AckOk(db, 0)
  }

  /** `XRANGE key - + COUNT 1`. */
  function XRangeFirst(db: Store, key: string): (r: seq<ReplyEntry>)
    ensures |r| <= 1
  {
    var s := StreamAt(db, key);
    if s.entries == [] then [] else [ReplyEntry(IdString(s.entries[0].id), s.entries[0].fields)]
  }

  /** The entries whose id is not below `minId`. */
  function KeepFrom(es: seq<Entry>, minId: EntryId): (r: seq<Entry>)
    ensures forall e :: e in r <==> e in es && !Before(e.id, minId)
    decreases |es|
  {
    if es == [] then []
    else (if Before(es[0].id, minId) then [] else [es[0]]) + KeepFrom(es[1..], minId)
  }

  /** `XTRIM key MINID id` (exact trimming). Groups and their PELs are untouched. */
  function XTrimMinId(db: Store, key: string, minId: EntryId): Store
  {
    if key !in db then db else db[key := db[key].(entries := KeepFrom(db[key].entries, minId))]
  }

  /** `XTRIM key MINID id` with the id as text: an id that does not parse is an error. */
  function XTrimMinIdText(db: Store, key: string, minId: string): Outcome
  {
    match ParseId(minId)
    case None => Error(InvalidId)
    case Some(id) => Done(XTrimMinId(db, key, id))
  }

  /** `XLEN key`. */
  function XLen(db: Store, key: string): nat
  {
    |StreamAt(db, key).entries|
  }

  // ---------------------------------------------------------------------
  // Properties

  /** XADD appends exactly one entry, at the end, with an id above every id
      the stream has issued; other streams are unchanged; validity is kept. */
  lemma XAddAppends(db: Store, key: string, now: nat, fields: seq<string>)
    requires Valid(db)
    ensures
      var a := XAdd(db, key, now, fields);
      && Valid(a.db)
      && StreamAt(a.db, key).entries == StreamAt(db, key).entries + [Entry(a.id, fields)]
      && StreamAt(a.db, key).groups == StreamAt(db, key).groups
      && Before(StreamAt(db, key).lastId, a.id)
      && forall k :: k != key ==> StreamAt(a.db, k) == StreamAt(db, k)
  {
    var s := StreamAt(db, key);
    assert ValidStream(s);
    var a := XAdd(db, key, now, fields);
    var s' := a.db[key];
    forall i, j | 0 <= i < j < |s'.entries| ensures Before(s'.entries[i].id, s'.entries[j].id) {
      if j == |s.entries| {
        assert !Before(s.lastId, s.entries[i].id);
      }
    }
  }

  lemma {:induction false} AfterAll(es: seq<Entry>, cursor: EntryId)
    requires forall i :: 0 <= i < |es| ==> Before(cursor, es[i].id)
    ensures After(es, cursor) == es
    decreases |es|
  {
    if es != [] {
      AfterAll(es[1..], cursor);
    }
  }

  lemma {:induction false} AfterNone(es: seq<Entry>, cursor: EntryId)
    requires forall i :: 0 <= i < |es| ==> !Before(cursor, es[i].id)
    ensures After(es, cursor) == []
    decreases |es|
  {
    if es != [] {
      AfterNone(es[1..], cursor);
    }
  }

  /** In an ordered stream the entries after the id of entry `i` are exactly
      those at positions after `i`. */
  lemma {:induction false} AfterMember(es: seq<Entry>, i: nat)
    requires Ordered(es) && i < |es|
    ensures After(es, es[i].id) == es[i + 1..]
    decreases i
  {
    if i == 0 {
      AfterAll(es[1..], es[0].id);
    } else {
      AfterMember(es[1..], i - 1);
      assert es[1..][i - 1] == es[i];
      assert es[1..][i..] == es[i + 1..];
    }
  }

  /** In an ordered stream the entries after any cursor form a suffix. */
  lemma {:induction false} AfterIsSuffix(es: seq<Entry>, cursor: EntryId) returns (k: nat)
    requires Ordered(es)
    ensures k <= |es| && After(es, cursor) == es[k..]
    decreases |es|
  {
    if es == [] {
      k := 0;
    } else if Before(cursor, es[0].id) {
      AfterAll(es, cursor);
      k := 0;
    } else {
      var k' := AfterIsSuffix(es[1..], cursor);
      k := k' + 1;
      assert es[1..][k'..] == es[k..];
    }
  }

  /** Appending an entry adds it to what is after a cursor exactly when its
      id is after the cursor. */
  lemma {:induction false} AfterAppend(es: seq<Entry>, x: Entry, cursor: EntryId)
    ensures After(es + [x], cursor) == After(es, cursor) + (if Before(cursor, x.id) then [x] else [])
    decreases |es|
  {
    if es == [] {
      assert After([x][1..], cursor) == [];
    } else {
      assert (es + [x])[1..] == es[1..] + [x];
      AfterAppend(es[1..], x, cursor);
    }
  }

  /** Every entry of a group created at 0 is after its initial cursor. */
  lemma NewGroupSeesWholeStream(s: Stream)
    requires ValidStream(s)
    ensures After(s.entries, Zero) == s.entries
  {
    AfterAll(s.entries, Zero);
  }

  /** The entries a `>` read hands out. */
  function NextBatch(s: Stream, group: string, count: int): seq<Entry>
    requires group in s.groups
  {
    Take(After(s.entries, s.groups[group].lastDelivered), count)
  }

  /** A `>` read on an existing group succeeds: nil when nothing is
      undelivered, otherwise the next batch, which becomes pending for the
      reading consumer and moves the cursor to its last id. */
  lemma ReadNewReply(db: Store, key: string, group: string, consumer: string, count: int)
    requires key in db && group in db[key].groups
    ensures
      var s := db[key];
      var batch := NextBatch(s, group, count);
      var r := XReadGroupNew(db, key, group, consumer, count);
      && r.ReadOk?
      && (batch == [] <==> After(s.entries, s.groups[group].lastDelivered) == [])
      && (batch == [] ==> r == ReadOk(db, Nil))
      && (batch != [] ==>
            && r.reply == Streams([StreamReply(key, Replies(batch))])
            && key in r.db && group in r.db[key].groups
            && r.db[key].entries == s.entries
            && r.db[key].groups[group].lastDelivered == batch[|batch| - 1].id
            && (forall e :: e in batch ==>
                  e.id in r.db[key].groups[group].pending && r.db[key].groups[group].pending[e.id] == consumer))
  {
  }

  /** A `>` read keeps the store well formed: it moves a cursor and fills a
      PEL but touches no entry. */
  lemma ReadNewKeepsValid(db: Store, key: string, group: string, consumer: string, count: int)
    requires Valid(db)
    ensures
      var r := XReadGroupNew(db, key, group, consumer, count);
      r.ReadOk? ==> Valid(r.db)
  {
    var r := XReadGroupNew(db, key, group, consumer, count);
    if r.ReadOk? {
      forall k | k in r.db ensures ValidStream(r.db[k]) {
        assert r.db[k].entries == db[k].entries && r.db[k].lastId == db[k].lastId;
      }
    }
  }

  /** Delivery order: what is undelivered before a `>` read is the batch it
      returns followed by what is undelivered after it. So successive reads
      hand out every entry once, in stream order, with no gaps and no repeats;
      entries at or below the cursor (delivered before, acknowledged or not)
      are never returned again, whichever consumer name reads. */
  lemma ReadNewDelivers(db: Store, key: string, group: string, consumer: string, count: int)
    requires Valid(db) && key in db && group in db[key].groups
    requires NextBatch(db[key], group, count) != []
    ensures
      var s := db[key];
      var batch := NextBatch(s, group, count);
      var r := XReadGroupNew(db, key, group, consumer, count);
      && r.ReadOk? && Valid(r.db)
      && After(s.entries, s.groups[group].lastDelivered)
           == batch + After(r.db[key].entries, r.db[key].groups[group].lastDelivered)
  {
    var s := db[key];
    assert ValidStream(s);
    var batch := NextBatch(s, group, count);
    var r := XReadGroupNew(db, key, group, consumer, count);
    ReadNewReply(db, key, group, consumer, count);
    ReadNewKeepsValid(db, key, group, consumer, count);
    BatchThenRest(s.entries, s.groups[group].lastDelivered, count);
    assert r.db[key].entries == s.entries;
    assert r.db[key].groups[group].lastDelivered == batch[|batch| - 1].id;
  }

  /** In an ordered stream, what is after a cursor is a batch taken from it
      followed by what is after the batch's last id. */
  lemma BatchThenRest(es: seq<Entry>, cursor: EntryId, count: int)
    requires Ordered(es) && Take(After(es, cursor), count) != []
    ensures
      var batch := Take(After(es, cursor), count);
      After(es, cursor) == batch + After(es, batch[|batch| - 1].id)
  {
    var before := After(es, cursor);
    var k := AfterIsSuffix(es, cursor);
    var batch := Take(before, count);
    var last := k + |batch| - 1;
    assert batch[|batch| - 1] == es[last];
    AfterMember(es, last);
    assert before == batch + es[last + 1..];
  }

  /** The pending read always answers with exactly one stream. */
  lemma PendingReplyIsSingleStream(db: Store, key: string, group: string, consumer: string, count: int)
    ensures
      var r := XReadGroupPending(db, key, group, consumer, count);
      r.ReadOk? ==> r.reply.Streams? && |r.reply.streams| == 1 && r.db == db
  {
  }

  /** Acknowledging a delivered id removes exactly that id from the group's PEL
      and changes nothing else. */
  lemma XAckRemoves(db: Store, key: string, group: string, id: EntryId)
    requires key in db && group in db[key].groups
    ensures
      var r := XAck(db, key, group, IdString(id));
      var g := db[key].groups[group];
      && r.AckOk?
      && r.count == (if id in g.pending then 1 else 0)
      && r.db[key].groups[group] == g.(pending := g.pending - {id})
      && r.db[key].entries == db[key].entries
      && (forall h :: h != group && h in db[key].groups ==> h in r.db[key].groups && r.db[key].groups[h] == db[key].groups[h])
      && (forall k :: k != key ==> StreamAt(r.db, k) == StreamAt(db, k))
  {
    ParseIdString(id);
    var g := db[key].groups[group];
    if id !in g.pending {
      assert g.pending - {id} == g.pending;
    }
  }

  /** Exact MINID trimming drops precisely the entries below the given id and
      keeps the rest in order. */
  lemma XTrimMinIdKeeps(db: Store, key: string, minId: EntryId)
    requires Valid(db)
    ensures
      var db' := XTrimMinId(db, key, minId);
      && Valid(db')
      && (forall e :: e in StreamAt(db', key).entries <==> e in StreamAt(db, key).entries && !Before(e.id, minId))
      && StreamAt(db', key).groups == StreamAt(db, key).groups
      && XLen(db', key) <= XLen(db, key)
  {
    if key in db {
      var s := db[key];
      assert ValidStream(s);
      var k := KeepSuffix(s.entries, minId);
    }
  }

  lemma {:induction false} KeepAll(es: seq<Entry>, minId: EntryId)
    requires forall i :: 0 <= i < |es| ==> !Before(es[i].id, minId)
    ensures KeepFrom(es, minId) == es
    decreases |es|
  {
    if es != [] {
      KeepAll(es[1..], minId);
    }
  }

  /** In an ordered stream the kept entries form a suffix. */
  lemma {:induction false} KeepSuffix(es: seq<Entry>, minId: EntryId) returns (k: nat)
    requires Ordered(es)
    ensures k <= |es| && KeepFrom(es, minId) == es[k..]
    decreases |es|
  {
    if es == [] {
      k := 0;
    } else if !Before(es[0].id, minId) {
      KeepAll(es, minId);
      k := 0;
    } else {
      var k' := KeepSuffix(es[1..], minId);
      k := k' + 1;
      assert es[1..][k'..] == es[k..];
    }
  }

  // ---------------------------------------------------------------------
  // The store as an object shared by producers and consumers

  class Redis {
    var db: Store

    constructor()
      ensures db == map[]
    {
      db := map[];
    }

    method Add(key: string, now: nat, fields: seq<string>) returns (id: EntryId)
      modifies this
      ensures XAdd(old(db), key, now, fields) == Added(db, id)
    {
      var a := XAdd(db, key, now, fields);
      db, id := a.db, a.id;
    }

    method CreateGroup(key: string, group: string) returns (r: Outcome)
      modifies this
      ensures r == XGroupCreate(old(db), key, group)
      ensures db == if r.Done? then r.db else old(db)
    {
      r := XGroupCreate(db, key, group);
      if r.Done? {
        db := r.db;
      }
    }

    method ReadGroupNew(key: string, group: string, consumer: string, count: int) returns (r: ReadResult)
      modifies this
      ensures r == XReadGroupNew(old(db), key, group, consumer, count)
      ensures db == if r.ReadOk? then r.db else old(db)
    {
      r := XReadGroupNew(db, key, group, consumer, count);
      if r.ReadOk? {
        db := r.db;
      }
    }

    method ReadGroupPending(key: string, group: string, consumer: string, count: int) returns (r: ReadResult)
      ensures r == XReadGroupPending(db, key, group, consumer, count)
    {
      r := XReadGroupPending(db, key, group, consumer, count);
    }

    method Ack(key: string, group: string, id: string) returns (r: AckResult)
      modifies this
      ensures r == XAck(old(db), key, group, id)
      ensures db == if r.AckOk? then r.db else old(db)
    {
      r := XAck(db, key, group, id);
      if r.AckOk? {
        db := r.db;
      }
    }

    method RangeFirst(key: string) returns (r: seq<ReplyEntry>)
      ensures r == XRangeFirst(db, key)
    {
      r := XRangeFirst(db, key);
    }

    /** `XTRIM key MINID id` with the id given as text, as the client sends it. */
    method TrimMinId(key: string, minId: string) returns (r: Outcome)
      modifies this
      ensures r == XTrimMinIdText(old(db), key, minId)
      ensures db == if r.Done? then r.db else old(db)
    {
      r := XTrimMinIdText(db, key, minId);
      if r.Done? {
        db := r.db;
      }
    }

    method Len(key: string) returns (n: nat)
      ensures n == XLen(db, key)
    {
      n := XLen(db, key);
    }
  }
}
