/**
 * An abstract, in-memory stand-in for the Redis stream commands the client
 * uses: XADD, XGROUP CREATE … MKSTREAM, XREADGROUP with the id ">" and XACK.
 *
 * The store's whole state is a `Snapshot` value; each command is a pure
 * function from one snapshot to the next, and the `Store` class holds the
 * current snapshot in its fields and is proved against those functions.
 */
module LogStore {
  import opened Wrappers

  /** Store-assigned entry ids. The first id is 1, so the group offset "0"
      lies before every entry. */
  type EntryId = nat

  type Fields = map<string, string>

  datatype Entry = Entry(id: EntryId, fields: Fields)

  datatype GroupKey = GroupKey(stream: string, group: string)

  /** A consumer group: the last id delivered with ">" and the pending
      entries list (id to the consumer it was delivered to). */
  datatype GroupState = GroupState(lastDelivered: EntryId, pending: map<EntryId, string>)

  datatype StoreError =
    | BusyGroup   // XGROUP CREATE on a group that already exists
    | NoGroup     // XREADGROUP on a group that does not exist
    | Transport   // the connection to the store failed

  /** What XREADGROUP answers: entries, the nil reply of a read that timed
      out (`redis.Nil`), or an error. */
  datatype ReadReply = Messages(entries: seq<Entry>) | NoData | ReadError(error: StoreError)

  datatype Snapshot = Snapshot(streams: map<string, seq<Entry>>, groups: map<GroupKey, GroupState>, lastId: EntryId)

  const EmptyStore := Snapshot(map[], map[], 0)

  /** The entries of a stream; a stream that does not exist reads as empty. */
  function Entries(s: Snapshot, name: string): seq<Entry> {
    if name in s.streams then s.streams[name] else []
  }

  /** Entry ids are positive, at most the last id assigned, and strictly
      increasing along the stream. */
  predicate Ascending(entries: seq<Entry>, lastId: EntryId) {
    && (forall i :: 0 <= i < |entries| ==> 0 < entries[i].id <= lastId)
    && (forall i, j :: 0 <= i < j < |entries| ==> entries[i].id < entries[j].id)
  }

  predicate WellFormed(s: Snapshot) {
    forall name :: name in s.streams ==> Ascending(s.streams[name], s.lastId)
  }

  /** No group's cursor lies past the last id handed out: every entry
      appended later is past every cursor. */
  predicate CursorsBehind(s: Snapshot) {
    forall k :: k in s.groups ==> s.groups[k].lastDelivered <= s.lastId
  }

  function Ids(entries: seq<Entry>): set<EntryId>
    decreases |entries|
  {
    if entries == [] then {} else Ids(entries[..|entries| - 1]) + {entries[|entries| - 1].id}
  }

  // ---------------------------------------------------------------------
  // XADD name * field value …

  /** The snapshot after appending one entry with a fresh id. */
  function Append(s: Snapshot, name: string, fields: Fields): (r: Snapshot)
    ensures r.lastId == s.lastId + 1
    ensures Entries(r, name) == Entries(s, name) + [Entry(r.lastId, fields)]
    ensures forall other :: other != name ==> Entries(r, other) == Entries(s, other)
    ensures r.groups == s.groups
  {
    s.(streams := s.streams[name := Entries(s, name) + [Entry(s.lastId + 1, fields)]], lastId := s.lastId + 1)
  }

  lemma AppendWellFormed(s: Snapshot, name: string, fields: Fields)
    requires WellFormed(s)
    ensures WellFormed(Append(s, name, fields))
  {
    var r := Append(s, name, fields);
    forall n | n in r.streams ensures Ascending(r.streams[n], r.lastId) {
      if n == name {
        var es := Entries(s, name);
        assert name in s.streams ==> Ascending(es, s.lastId);
        assert r.streams[n] == es + [Entry(r.lastId, fields)];
      } else {
        assert r.streams[n] == s.streams[n];
      }
    }
  }

  // ---------------------------------------------------------------------
  // XGROUP CREATE name group 0 MKSTREAM

  /** The snapshot after creating the group at offset "0" (and the stream,
      empty, if it does not exist); an existing group is left as it is and
      the command answers BUSYGROUP. */
  function CreateGroup(s: Snapshot, key: GroupKey): Snapshot {
    if key in s.groups then s
    else s.(streams := s.streams[key.stream := Entries(s, key.stream)],
            groups := s.groups[key := GroupState(0, map[])])
  }

  function CreateGroupError(s: Snapshot, key: GroupKey): Option<StoreError> {
    if key in s.groups then Some(BusyGroup) else None
  }

  /** Creating a group never disturbs an existing one, and creating it twice
      is the same as creating it once. */
  lemma CreateGroupIdempotent(s: Snapshot, key: GroupKey)
    ensures key in s.groups ==> CreateGroup(s, key) == s
    ensures CreateGroup(CreateGroup(s, key), key) == CreateGroup(s, key)
    ensures CreateGroupError(CreateGroup(s, key), key) == Some(BusyGroup)
    ensures key in CreateGroup(s, key).groups
    ensures forall k :: k in s.groups ==> CreateGroup(s, key).groups[k] == s.groups[k]
    ensures forall n :: Entries(CreateGroup(s, key), n) == Entries(s, n)
    ensures key !in s.groups ==>
      && CreateGroup(s, key).groups == s.groups[key := GroupState(0, map[])]
      && CreateGroup(s, key).lastId == s.lastId
  {
  }

  // ---------------------------------------------------------------------
  // XREADGROUP GROUP group consumer STREAMS name >

  /** The entries of `entries` whose id lies past `cursor`, in order. */
  function After(entries: seq<Entry>, cursor: EntryId): seq<Entry>
    decreases |entries|
  {
    if entries == [] then []
    else if entries[0].id > cursor then [entries[0]] + After(entries[1..], cursor)
    else After(entries[1..], cursor)
  }

  /** What a ">" read would deliver: every entry past the group's cursor. */
  function NewEntries(s: Snapshot, key: GroupKey): seq<Entry> {
    if key in s.groups then After(Entries(s, key.stream), s.groups[key].lastDelivered) else []
  }

  function ReadGroupReply(s: Snapshot, key: GroupKey): ReadReply {
    if key !in s.groups then ReadError(NoGroup)
    else if NewEntries(s, key) == [] then NoData
    else Messages(NewEntries(s, key))
  }

  /** The snapshot after a ">" read: the delivered entries join the pending
      entries list under `consumer` and the cursor moves to the last of them. */
  function ReadGroup(s: Snapshot, key: GroupKey, consumer: string): Snapshot {
    match ReadGroupReply(s, key)
    case Messages(batch) =>
      var g := s.groups[key];
      var delivered := map id | id in Ids(batch) :: consumer;
      s.(groups := s.groups[key := GroupState(batch[|batch| - 1].id, g.pending + delivered)])
    case _ => s
  }

  lemma {:induction false} AfterMembers(entries: seq<Entry>, cursor: EntryId)
    ensures forall e :: e in After(entries, cursor) <==> e in entries && e.id > cursor
    decreases |entries|
  {
    if entries != [] {
      AfterMembers(entries[1..], cursor);
      assert entries == [entries[0]] + entries[1..];
    }
  }

  lemma {:induction false} AfterAscending(entries: seq<Entry>, cursor: EntryId, lastId: EntryId)
    requires Ascending(entries, lastId)
    ensures Ascending(After(entries, cursor), lastId)
    ensures After(entries, cursor) != [] ==> After(entries, cursor)[0].id > cursor
    decreases |entries|
  {
    if entries != [] {
      assert Ascending(entries[1..], lastId);
      AfterAscending(entries[1..], cursor, lastId);
      AfterMembers(entries[1..], cursor);
      var rest := After(entries[1..], cursor);
      if entries[0].id > cursor {
        forall j | 0 <= j < |rest| ensures entries[0].id < rest[j].id {
          assert rest[j] in entries[1..];
        }
        ConsAscending(entries[0], rest, lastId);
      }
    }
  }

  lemma ConsAscending(e: Entry, rest: seq<Entry>, lastId: EntryId)
    requires 0 < e.id <= lastId && Ascending(rest, lastId)
    requires forall j :: 0 <= j < |rest| ==> e.id < rest[j].id
    ensures Ascending([e] + rest, lastId)
  {
    var r := [e] + rest;
    forall i, j | 0 <= i < j < |r| ensures r[i].id < r[j].id {
      assert r[j] == rest[j - 1];
      if i > 0 { assert r[i] == rest[i - 1]; }
    }
  }

  /** On ascending ids, the entries past a cursor are a suffix of the stream. */
  lemma {:induction false} AfterIsSuffix(entries: seq<Entry>, cursor: EntryId, lastId: EntryId)
    requires Ascending(entries, lastId)
    ensures exists k :: 0 <= k <= |entries| && After(entries, cursor) == entries[k..]
    decreases |entries|
  {
    if entries == [] {
      assert After(entries, cursor) == entries[0..];
    } else if entries[0].id > cursor {
      forall j | 0 <= j < |entries| ensures entries[j].id > cursor {
        if j > 0 { assert entries[0].id < entries[j].id; }
      }
      AfterAll(entries, cursor);
      assert After(entries, cursor) == entries[0..];
    } else {
      AfterIsSuffix(entries[1..], cursor, lastId);
      var k :| 0 <= k <= |entries[1..]| && After(entries[1..], cursor) == entries[1..][k..];
      assert entries[1..][k..] == entries[k + 1..];
    }
  }

  lemma {:induction false} AfterAll(entries: seq<Entry>, cursor: EntryId)
    requires forall j :: 0 <= j < |entries| ==> entries[j].id > cursor
    ensures After(entries, cursor) == entries
    decreases |entries|
  {
    if entries != [] {
      AfterAll(entries[1..], cursor);
      assert entries == [entries[0]] + entries[1..];
    }
  }

  /** A group created at offset "0" delivers everything already in the stream. */
  lemma CreateGroupDeliversBacklog(s: Snapshot, key: GroupKey)
    requires WellFormed(s)
    requires key !in s.groups
    ensures NewEntries(CreateGroup(s, key), key) == Entries(s, key.stream)
  {
    var es := Entries(s, key.stream);
    assert key.stream in s.streams ==> Ascending(es, s.lastId);
    AfterAll(es, 0);
  }

  /** A ">" read on an existing group either times out or delivers a
      non-empty batch: exactly the stream's entries past the cursor, in
      stream order, forming a suffix of the stream. */
  lemma ReadGroupDelivers(s: Snapshot, key: GroupKey)
    requires WellFormed(s)
    requires key in s.groups
    ensures ReadGroupReply(s, key).Messages? || ReadGroupReply(s, key).NoData?
    ensures ReadGroupReply(s, key).Messages? ==>
      var batch := ReadGroupReply(s, key).entries;
      var es := Entries(s, key.stream);
      && batch != []
      && (forall e :: e in batch <==> e in es && e.id > s.groups[key].lastDelivered)
      && (exists k :: 0 <= k < |es| && batch == es[k..])
    ensures ReadGroupReply(s, key).NoData? ==>
      forall e :: e in Entries(s, key.stream) ==> e.id <= s.groups[key].lastDelivered
  {
    var es := Entries(s, key.stream);
    assert key.stream in s.streams ==> Ascending(es, s.lastId);
    var cursor := s.groups[key].lastDelivered;
    AfterMembers(es, cursor);
    AfterIsSuffix(es, cursor, s.lastId);
  }

  /** A timed-out read changes nothing; a read that delivers moves the
      cursor forward to the last delivered id, records every delivered id
      as pending for the reader, and keeps everything else. */
  lemma ReadGroupMarksPending(s: Snapshot, key: GroupKey, consumer: string)
    requires WellFormed(s)
    requires key in s.groups
    ensures !ReadGroupReply(s, key).Messages? ==> ReadGroup(s, key, consumer) == s
    ensures ReadGroupReply(s, key).Messages? ==>
      var batch := ReadGroupReply(s, key).entries;
      var r := ReadGroup(s, key, consumer);
      && r.streams == s.streams && r.lastId == s.lastId
      && r.groups.Keys == s.groups.Keys
      && (forall k :: k in s.groups && k != key ==> r.groups[k] == s.groups[k])
      && r.groups[key].lastDelivered == batch[|batch| - 1].id > s.groups[key].lastDelivered
      && r.groups[key].pending.Keys == s.groups[key].pending.Keys + Ids(batch)
      && (forall e :: e in batch ==> e.id in r.groups[key].pending && r.groups[key].pending[e.id] == consumer)
      && (forall id :: id in s.groups[key].pending && id !in Ids(batch) ==>
            id in r.groups[key].pending && r.groups[key].pending[id] == s.groups[key].pending[id])
  {
    var batch := NewEntries(s, key);
    if batch != [] {
      DeliveredKeys(s.groups[key].pending, Ids(batch), consumer);
      BatchWithinCursor(s, key);
      IdsMembers(batch);
    }
  }

  /** A read delivers ids past the old cursor and no later than the last of
      them, where the new cursor stands. */
  lemma BatchWithinCursor(s: Snapshot, key: GroupKey)
    requires WellFormed(s) && key in s.groups && NewEntries(s, key) != []
    ensures var batch := NewEntries(s, key);
      forall e :: e in batch ==> s.groups[key].lastDelivered < e.id <= batch[|batch| - 1].id
  {
    var batch := NewEntries(s, key);
    var es := Entries(s, key.stream);
    var cursor := s.groups[key].lastDelivered;
    assert key.stream in s.streams ==> Ascending(es, s.lastId);
    AfterAscending(es, cursor, s.lastId);
    AfterMembers(es, cursor);
    forall e | e in batch ensures e.id <= batch[|batch| - 1].id {
      var j :| 0 <= j < |batch| && batch[j] == e;
      if j < |batch| - 1 { assert batch[j].id < batch[|batch| - 1].id; }
    }
  }

  lemma DeliveredKeys(pending: map<EntryId, string>, ids: set<EntryId>, consumer: string)
    ensures (pending + map id | id in ids :: consumer).Keys == pending.Keys + ids
  {
  }

  /** A delivered entry is never delivered again by the same group: right
      after a read, a second read finds nothing. */
  lemma ReadGroupDrains(s: Snapshot, key: GroupKey, consumer: string)
    requires WellFormed(s)
    requires key in s.groups
    ensures ReadGroupReply(ReadGroup(s, key, consumer), key) == NoData
  {
    var es := Entries(s, key.stream);
    assert key.stream in s.streams ==> Ascending(es, s.lastId);
    var cursor := s.groups[key].lastDelivered;
    var batch := After(es, cursor);
    if batch != [] {
      AfterMembers(es, cursor);
      AfterAscending(es, cursor, s.lastId);
      var last := batch[|batch| - 1].id;
      var r := ReadGroup(s, key, consumer);
      assert r.groups[key].lastDelivered == last;
      assert Entries(r, key.stream) == es;
      forall e | e in batch ensures e.id <= last {
        var j :| 0 <= j < |batch| && batch[j] == e;
        if j < |batch| - 1 { assert batch[j].id < batch[|batch| - 1].id; }
      }
      assert last > cursor by {
        if |batch| > 1 { assert batch[0].id < batch[|batch| - 1].id; }
      }
      forall j | 0 <= j < |es| ensures es[j].id <= last {
        if es[j].id > cursor { assert es[j] in batch; }
      }
      AfterNone(es, last);
    }
  }

  lemma {:induction false} AfterNone(entries: seq<Entry>, cursor: EntryId)
    requires forall j :: 0 <= j < |entries| ==> entries[j].id <= cursor
    ensures After(entries, cursor) == []
    decreases |entries|
  {
    if entries != [] {
      AfterNone(entries[1..], cursor);
    }
  }

  lemma {:induction false} IdsMembers(entries: seq<Entry>)
    ensures forall id :: id in Ids(entries) <==> exists e :: e in entries && e.id == id
    decreases |entries|
  {
    if entries != [] {
      var prefix := entries[..|entries| - 1];
      IdsMembers(prefix);
      assert entries == prefix + [entries[|entries| - 1]];
    }
  }

  /** An entry past the cursor that joins the end of a stream joins the end
      of what a read would deliver. */
  lemma {:induction false} AfterSnoc(entries: seq<Entry>, e: Entry, cursor: EntryId)
    requires e.id > cursor
    ensures After(entries + [e], cursor) == After(entries, cursor) + [e]
    decreases |entries|
  {
    if entries == [] {
      assert After([e], cursor) == [e] + After([], cursor);
    } else {
      AfterSnoc(entries[1..], e, cursor);
      assert (entries + [e])[1..] == entries[1..] + [e];
    }
  }

  /** Producing before the group exists: the group created afterwards at
      offset "0" delivers the whole stream, new entry last. */
  lemma CreatedAfterAppend(s: Snapshot, key: GroupKey, fields: Fields)
    requires WellFormed(s) && key !in s.groups
    ensures var s1 := Append(s, key.stream, fields);
      var s2 := CreateGroup(s1, key);
      && Entries(s2, key.stream) == Entries(s, key.stream) + [Entry(s1.lastId, fields)]
      && ReadGroupReply(s2, key) == Messages(Entries(s, key.stream) + [Entry(s1.lastId, fields)])
  {
    var s1 := Append(s, key.stream, fields);
    AppendWellFormed(s, key.stream, fields);
    CreateGroupIdempotent(s1, key);
    CreateGroupDeliversBacklog(s1, key);
  }

  /** Producing into a stream whose group is already running: the next ">"
      read delivers whatever the group had not yet read, followed by the
      new entry. */
  lemma AppendReachesGroup(s: Snapshot, key: GroupKey, fields: Fields)
    requires CursorsBehind(s) && key in s.groups
    ensures var r := Append(s, key.stream, fields);
      && NewEntries(r, key) == NewEntries(s, key) + [Entry(r.lastId, fields)]
      && ReadGroupReply(r, key) == Messages(NewEntries(s, key) + [Entry(r.lastId, fields)])
  {
    var r := Append(s, key.stream, fields);
    AfterSnoc(Entries(s, key.stream), Entry(r.lastId, fields), s.groups[key].lastDelivered);
  }

  // ---------------------------------------------------------------------
  // XACK name group id

  /** The snapshot after acknowledging `id`: it leaves the group's pending
      entries list; a missing group or an id that is not pending is a no-op. */
  function Ack(s: Snapshot, key: GroupKey, id: EntryId): Snapshot {
    if key in s.groups then
      s.(groups := s.groups[key := s.groups[key].(pending := s.groups[key].pending - {id})])
    else s
  }

  /** The count XACK answers. */
  function AckCount(s: Snapshot, key: GroupKey, id: EntryId): nat {
    if key in s.groups && id in s.groups[key].pending then 1 else 0
  }

  /** XACK removes exactly the acknowledged id, touches nothing else, and
      acknowledging twice is the same as once. */
  lemma AckEffect(s: Snapshot, key: GroupKey, id: EntryId)
    ensures var r := Ack(s, key, id);
      && r.streams == s.streams && r.lastId == s.lastId
      && r.groups.Keys == s.groups.Keys
      && (forall k :: k in s.groups && k != key ==> r.groups[k] == s.groups[k])
      && (key in s.groups ==>
            && r.groups[key].pending.Keys == s.groups[key].pending.Keys - {id}
            && r.groups[key].lastDelivered == s.groups[key].lastDelivered
            && (forall other :: other != id && other in s.groups[key].pending ==>
                  other in r.groups[key].pending && r.groups[key].pending[other] == s.groups[key].pending[other]))
      && Ack(r, key, id) == r
      && AckCount(r, key, id) == 0
  {
    if key in s.groups {
      var p := s.groups[key].pending - {id};
      assert p - {id} == p;
    }
  }

  /** Every store command keeps every cursor at or behind the last id. */
  lemma CursorsBehindKept(s: Snapshot, key: GroupKey, consumer: string, name: string, fields: Fields, id: EntryId)
    requires WellFormed(s) && CursorsBehind(s)
    ensures CursorsBehind(Append(s, name, fields))
    ensures CursorsBehind(CreateGroup(s, key))
    ensures CursorsBehind(ReadGroup(s, key, consumer))
    ensures CursorsBehind(Ack(s, key, id))
  {
    if key in s.groups && NewEntries(s, key) != [] {
      var es := Entries(s, key.stream);
      var batch := NewEntries(s, key);
      assert key.stream in s.streams ==> Ascending(es, s.lastId);
      AfterMembers(es, s.groups[key].lastDelivered);
      assert batch[|batch| - 1] in es;
    }
  }

  // ---------------------------------------------------------------------
  // The store object

  class Store {
    var streams: map<string, seq<Entry>>
    var groups: map<GroupKey, GroupState>
    var lastId: EntryId

    function State(): Snapshot
      reads this
    {
      Snapshot(streams, groups, lastId)
    }

    ghost predicate Valid()
      reads this
    {
      WellFormed(State())
    }

    constructor ()
      ensures Valid() && State() == EmptyStore
    {
      streams, groups, lastId := map[], map[], 0;
    }

    method XAdd(name: string, fields: Fields) returns (id: EntryId)
      requires Valid()
      modifies this
      ensures Valid()
      ensures State() == Append(old(State()), name, fields)
      ensures id == lastId && Entries(State(), name)[|Entries(State(), name)| - 1] == Entry(id, fields)
    {
      AppendWellFormed(State(), name, fields);
      var next := Append(State(), name, fields);
      streams, lastId := next.streams, next.lastId;
      id := lastId;
    }

    method XGroupCreateMkStream(key: GroupKey) returns (err: Option<StoreError>)
      requires Valid()
      modifies this
      ensures Valid()
      ensures State() == CreateGroup(old(State()), key)
      ensures err == CreateGroupError(old(State()), key)
    {
      err := CreateGroupError(State(), key);
      if err == None {
        streams := streams[key.stream := Entries(State(), key.stream)];
        groups := groups[key := GroupState(0, map[])];
      }
    }

    method XReadGroup(key: GroupKey, consumer: string) returns (reply: ReadReply)
      requires Valid()
      modifies this
      ensures Valid()
      ensures reply == ReadGroupReply(old(State()), key)
      ensures State() == ReadGroup(old(State()), key, consumer)
    {
      reply := ReadGroupReply(State(), key);
      groups := ReadGroup(State(), key, consumer).groups;
    }

    method XAck(key: GroupKey, id: EntryId) returns (count: nat)
      requires Valid()
      modifies this
      ensures Valid()
      ensures count == AckCount(old(State()), key, id)
      ensures State() == Ack(old(State()), key, id)
    {
      count := AckCount(State(), key, id);
      if key in groups {
        groups := groups[key := groups[key].(pending := groups[key].pending - {id})];
      }
    }
  }
}
