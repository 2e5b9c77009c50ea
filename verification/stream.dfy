/**
 * The stream client: the producer's single append and the consumer's
 * delivery, retry, acknowledgment and dead-letter rule, over the abstract
 * store of module LogStore.
 *
 * The specification is a set of pure functions on store snapshots
 * (`Handled`, `HandledAll`, `ConsumeStep`, `Rounds`) with lemmas about them;
 * the methods of `RedisStream` are proved to change the store exactly as
 * those functions say and to call the handler exactly as `AttemptTrace`
 * says.
 */
module Stream {
  import opened Wrappers
  import opened OrderCodec
  import opened LogStore

  /** Handler calls per message: one call and at most two retries. */
  const MaxAttempts: nat := 3

  /** The single field of every entry the client writes. */
  const DataField := "data"

  /** The dead-letter sibling of a stream. */
  function DeadLetterStream(name: string): (r: string)
    ensures r != name && name < r
  {
    name + "-dlq"
  }

  // ---------------------------------------------------------------------
  // The handler and the retry rule

  /** One handler call: the message being processed, the order passed to
      the handler and the attempt number (0, 1 or 2). */
  datatype Delivery = Delivery(message: EntryId, order: Order, attempt: nat)

  /** The handler, as the outcome of each call: true when it returns nil.
      The message id and attempt number stand for whatever state the real
      handler consults; it is only ever given the order. */
  type Handler = Delivery -> bool

  /** How a call to the store fails: it does not, it fails before the store
      applies it, or the store applies it and the reply is lost (a timeout
      on the reply, a cancelled context). The client sees an error in both
      failing cases. */
  datatype Fault = NoFault | Unsent | ReplyLost

  /** The number of calls made from attempt `i` on: up to and including the
      first success, and at most MaxAttempts in all. */
  function AttemptsFrom(h: Handler, id: EntryId, o: Order, i: nat): nat
    decreases MaxAttempts - i
  {
    if i >= MaxAttempts then MaxAttempts
    else if h(Delivery(id, o, i)) then i + 1
    else AttemptsFrom(h, id, o, i + 1)
  }

  function Attempts(h: Handler, id: EntryId, o: Order): nat {
    AttemptsFrom(h, id, o, 0)
  }

  /** Some attempt succeeds. */
  predicate Succeeds(h: Handler, id: EntryId, o: Order) {
    exists i :: 0 <= i < MaxAttempts && h(Delivery(id, o, i))
  }

  /** The handler calls made for one message, in order. */
  function AttemptTrace(h: Handler, id: EntryId, o: Order): seq<Delivery> {
    seq(Attempts(h, id, o), i requires 0 <= i => Delivery(id, o, i))
  }

  lemma {:induction false} AttemptsFromSpec(h: Handler, id: EntryId, o: Order, i: nat)
    requires i < MaxAttempts
    ensures i < AttemptsFrom(h, id, o, i) <= MaxAttempts
    ensures forall j :: i <= j < AttemptsFrom(h, id, o, i) - 1 ==> !h(Delivery(id, o, j))
    ensures (exists j :: i <= j < MaxAttempts && h(Delivery(id, o, j))) <==> h(Delivery(id, o, AttemptsFrom(h, id, o, i) - 1))
    ensures !(exists j :: i <= j < MaxAttempts && h(Delivery(id, o, j))) ==> AttemptsFrom(h, id, o, i) == MaxAttempts
    decreases MaxAttempts - i
  {
    if !h(Delivery(id, o, i)) && i + 1 < MaxAttempts {
      AttemptsFromSpec(h, id, o, i + 1);
      forall j | i <= j < MaxAttempts && h(Delivery(id, o, j)) ensures i + 1 <= j {
      }
    }
  }

  /** The handler runs at least once and at most MaxAttempts times; every
      call but the last fails; the last succeeds exactly when some attempt
      does; when every attempt fails it runs exactly MaxAttempts times. */
  lemma AttemptCount(h: Handler, id: EntryId, o: Order)
    ensures 1 <= Attempts(h, id, o) <= MaxAttempts
    ensures forall j :: 0 <= j < Attempts(h, id, o) - 1 ==> !h(Delivery(id, o, j))
    ensures Succeeds(h, id, o) <==> h(Delivery(id, o, Attempts(h, id, o) - 1))
    ensures !Succeeds(h, id, o) ==> Attempts(h, id, o) == MaxAttempts
  {
    AttemptsFromSpec(h, id, o, 0);
  }

  /** The number of calls is the index of the first success plus one. */
  lemma AttemptsAtFirstSuccess(h: Handler, id: EntryId, o: Order, k: nat)
    requires k < MaxAttempts && h(Delivery(id, o, k))
    requires forall j :: 0 <= j < k ==> !h(Delivery(id, o, j))
    ensures Attempts(h, id, o) == k + 1
    ensures AttemptTrace(h, id, o) == seq(k + 1, i requires 0 <= i => Delivery(id, o, i))
  {
    AttemptCount(h, id, o);
    assert Succeeds(h, id, o);
  }

  /** When every attempt fails, the handler is called for attempts 0, 1 and
      2, in that order. */
  lemma AttemptsAllFail(h: Handler, id: EntryId, o: Order)
    requires !Succeeds(h, id, o)
    ensures AttemptTrace(h, id, o) == [Delivery(id, o, 0), Delivery(id, o, 1), Delivery(id, o, 2)]
  {
    AttemptCount(h, id, o);
  }

  // ---------------------------------------------------------------------
  // Messages

  /** Every entry carries a string "data" field (the consumer's type
      assertion requires it). */
  predicate HasData(entries: seq<Entry>) {
    forall i :: 0 <= i < |entries| ==> DataField in entries[i].fields
  }

  /** The raw, undecoded payload of a message. */
  function Payload(e: Entry): string
    requires DataField in e.fields
  {
    e.fields[DataField]
  }

  /** The order the handler is given for a message. */
  function OrderOf(e: Entry): Order
    requires DataField in e.fields
  {
    Unmarshal(Payload(e))
  }

  function DeadLetterFields(raw: string): Fields {
    map[DataField := raw]
  }

  function FieldsOf(entries: seq<Entry>): seq<Fields>
    decreases |entries|
  {
    if entries == [] then [] else FieldsOf(entries[..|entries| - 1]) + [entries[|entries| - 1].fields]
  }

  lemma FieldsOfAppend(entries: seq<Entry>, e: Entry)
    ensures FieldsOf(entries + [e]) == FieldsOf(entries) + [e.fields]
  {
    assert (entries + [e])[..|entries|] == entries;
  }

  lemma HasDataAppend(entries: seq<Entry>, e: Entry)
    requires HasData(entries) && DataField in e.fields
    ensures HasData(entries + [e])
  {
    forall i | 0 <= i < |entries + [e]| ensures DataField in (entries + [e])[i].fields {
      if i < |entries| { assert (entries + [e])[i] == entries[i]; }
    }
  }

  lemma HasDataPrefix(entries: seq<Entry>, k: nat)
    requires HasData(entries) && k <= |entries|
    ensures HasData(entries[..k])
  {
    forall i | 0 <= i < k ensures DataField in entries[..k][i].fields {
      assert entries[..k][i] == entries[i];
    }
  }

  // ---------------------------------------------------------------------
  // Processing one message and one batch

  /** The store after processing one message: acknowledged when some
      attempt succeeds; otherwise its raw payload is first appended to the
      dead-letter stream and then it is acknowledged. */
  function Handled(s: Snapshot, key: GroupKey, e: Entry, h: Handler): Snapshot
    requires DataField in e.fields
  {
    if Succeeds(h, e.id, OrderOf(e)) then Ack(s, key, e.id)
    else Ack(Append(s, DeadLetterStream(key.stream), DeadLetterFields(Payload(e))), key, e.id)
  }

  /** The store after processing a batch, message by message, in order. */
  function HandledAll(s: Snapshot, key: GroupKey, batch: seq<Entry>, h: Handler): Snapshot
    requires HasData(batch)
    decreases |batch|
  {
    if batch == [] then s
    else
      HasDataPrefix(batch, |batch| - 1);
      Handled(HandledAll(s, key, batch[..|batch| - 1], h), key, batch[|batch| - 1], h)
  }

  /** The handler calls made for a batch, in order. */
  function BatchTrace(batch: seq<Entry>, h: Handler): seq<Delivery>
    requires HasData(batch)
    decreases |batch|
  {
    if batch == [] then []
    else
      var e := batch[|batch| - 1];
      HasDataPrefix(batch, |batch| - 1);
      BatchTrace(batch[..|batch| - 1], h) + AttemptTrace(h, e.id, OrderOf(e))
  }

  /** The entries a batch adds to the dead-letter stream: the raw payload
      of every message whose attempts all fail, in delivery order. */
  function DeadLetters(batch: seq<Entry>, h: Handler): seq<Fields>
    requires HasData(batch)
    decreases |batch|
  {
    if batch == [] then []
    else
      var e := batch[|batch| - 1];
      HasDataPrefix(batch, |batch| - 1);
      DeadLetters(batch[..|batch| - 1], h)
        + (if Succeeds(h, e.id, OrderOf(e)) then [] else [DeadLetterFields(Payload(e))])
  }

  /** Per message: on success only the acknowledgment happens and the
      dead-letter stream is untouched; on exhaustion the raw payload is
      appended, unchanged, to the dead-letter stream and the message is
      acknowledged as well. The primary stream never changes. */
  lemma HandledEffect(s: Snapshot, key: GroupKey, e: Entry, h: Handler)
    requires DataField in e.fields
    ensures var r := Handled(s, key, e, h);
      var dlq := DeadLetterStream(key.stream);
      && Entries(r, key.stream) == Entries(s, key.stream)
      && (forall n :: n != dlq ==> Entries(r, n) == Entries(s, n))
      && (Succeeds(h, e.id, OrderOf(e)) ==> Entries(r, dlq) == Entries(s, dlq) && r.lastId == s.lastId)
      && (!Succeeds(h, e.id, OrderOf(e)) ==>
            Entries(r, dlq) == Entries(s, dlq) + [Entry(s.lastId + 1, map[DataField := Payload(e)])]
            && r.lastId == s.lastId + 1)
      && r.groups.Keys == s.groups.Keys
      && (key in s.groups ==> e.id !in r.groups[key].pending)
      && r.groups == Ack(s, key, e.id).groups
  {
  }

  /** A payload that does not decode is not a failure in itself: the
      handler receives the zero order, and if it accepts that the message
      is acknowledged after one call and nothing is dead-lettered. */
  lemma MalformedPayloadIsNotFailure(s: Snapshot, key: GroupKey, e: Entry, h: Handler)
    requires DataField in e.fields && Decode(Payload(e)) == None
    requires h(Delivery(e.id, ZeroOrder, 0))
    ensures OrderOf(e) == ZeroOrder
    ensures AttemptTrace(h, e.id, OrderOf(e)) == [Delivery(e.id, ZeroOrder, 0)]
    ensures Handled(s, key, e, h) == Ack(s, key, e.id)
  {
    AttemptsAtFirstSuccess(h, e.id, ZeroOrder, 0);
  }

  /** What a batch does to the streams: the primary stream and every stream
      other than the dead-letter one are unchanged, and the dead-letter
      stream grows by exactly the batch's dead letters, in order. */
  lemma {:induction false} HandledAllStreams(s: Snapshot, key: GroupKey, batch: seq<Entry>, h: Handler)
    requires HasData(batch)
    ensures var r := HandledAll(s, key, batch, h);
      var dlq := DeadLetterStream(key.stream);
      && Entries(r, key.stream) == Entries(s, key.stream)
      && (forall n :: n != dlq ==> Entries(r, n) == Entries(s, n))
      && Entries(s, dlq) <= Entries(r, dlq)
      && FieldsOf(Entries(r, dlq)) == FieldsOf(Entries(s, dlq)) + DeadLetters(batch, h)
      && r.lastId == s.lastId + |DeadLetters(batch, h)|
    decreases |batch|
  {
    if batch != [] {
      var prefix := batch[..|batch| - 1];
      var e := batch[|batch| - 1];
      HasDataPrefix(batch, |batch| - 1);
      HandledAllStreams(s, key, prefix, h);
      var mid := HandledAll(s, key, prefix, h);
      var dlq := DeadLetterStream(key.stream);
      HandledEffect(mid, key, e, h);
      if !Succeeds(h, e.id, OrderOf(e)) {
        FieldsOfAppend(Entries(mid, dlq), Entry(mid.lastId + 1, map[DataField := Payload(e)]));
      }
    }
  }

  /** What a batch does to the groups: every message of the batch leaves
      the group's pending entries list, whatever the handler returned;
      nothing else in any group changes. */
  lemma {:induction false} HandledAllGroups(s: Snapshot, key: GroupKey, batch: seq<Entry>, h: Handler)
    requires HasData(batch)
    ensures var r := HandledAll(s, key, batch, h);
      && r.groups.Keys == s.groups.Keys
      && (forall k :: k in s.groups && k != key ==> r.groups[k] == s.groups[k])
      && (key in s.groups ==>
            r.groups[key] == s.groups[key].(pending := s.groups[key].pending - Ids(batch)))
    decreases |batch|
  {
    if batch != [] {
      var prefix := batch[..|batch| - 1];
      var e := batch[|batch| - 1];
      HasDataPrefix(batch, |batch| - 1);
      HandledAllGroups(s, key, prefix, h);
      var mid := HandledAll(s, key, prefix, h);
      HandledGroups(mid, key, e, h);
      if key in s.groups {
        MinusStep(s.groups[key].pending, Ids(prefix), e.id);
      }
    }
  }

  /** Processing a message changes the groups exactly as acknowledging it. */
  lemma HandledGroups(s: Snapshot, key: GroupKey, e: Entry, h: Handler)
    requires DataField in e.fields
    ensures Handled(s, key, e, h).groups == Ack(s, key, e.id).groups
  {
  }

  lemma MinusStep<K, V>(m: map<K, V>, a: set<K>, x: K)
    ensures (m - a) - {x} == m - (a + {x})
  {
  }

  lemma PlusMinus<K, V>(m: map<K, V>, d: map<K, V>, a: set<K>)
    requires d.Keys == a
    ensures (m + d) - a == m - a
  {
  }

  lemma {:induction false} HandledAllWellFormed(s: Snapshot, key: GroupKey, batch: seq<Entry>, h: Handler)
    requires HasData(batch) && WellFormed(s)
    ensures WellFormed(HandledAll(s, key, batch, h))
    decreases |batch|
  {
    if batch != [] {
      var prefix := batch[..|batch| - 1];
      var e := batch[|batch| - 1];
      HasDataPrefix(batch, |batch| - 1);
      HandledAllWellFormed(s, key, prefix, h);
      var mid := HandledAll(s, key, prefix, h);
      AppendWellFormed(mid, DeadLetterStream(key.stream), DeadLetterFields(Payload(e)));
    }
  }

  lemma BatchTraceOfOne(e: Entry, h: Handler)
    requires DataField in e.fields
    ensures HasData([e])
    ensures BatchTrace([e], h) == AttemptTrace(h, e.id, OrderOf(e))
  {
    assert [e][..0] == [];
  }

  /** A message added at the end of a batch adds its own calls at the end. */
  lemma BatchTraceSnoc(batch: seq<Entry>, e: Entry, h: Handler)
    requires HasData(batch) && DataField in e.fields
    ensures HasData(batch + [e])
    ensures BatchTrace(batch + [e], h) == BatchTrace(batch, h) + AttemptTrace(h, e.id, OrderOf(e))
  {
    HasDataAppend(batch, e);
    assert (batch + [e])[..|batch|] == batch;
  }

  lemma DeadLettersOfOne(e: Entry, h: Handler)
    requires DataField in e.fields
    ensures HasData([e])
    ensures DeadLetters([e], h) == if Succeeds(h, e.id, OrderOf(e)) then [] else [map[DataField := Payload(e)]]
  {
    assert [e][..0] == [];
  }

  /** A batch whose messages all succeed writes no dead letters. */
  lemma {:induction false} NoDeadLettersOnSuccess(batch: seq<Entry>, h: Handler)
    requires HasData(batch)
    requires forall i :: 0 <= i < |batch| ==> Succeeds(h, batch[i].id, OrderOf(batch[i]))
    ensures DeadLetters(batch, h) == []
    decreases |batch|
  {
    if batch != [] {
      HasDataPrefix(batch, |batch| - 1);
      NoDeadLettersOnSuccess(batch[..|batch| - 1], h);
    }
  }

  /** A batch whose messages all fail dead-letters every payload, in order,
      after MaxAttempts calls each. */
  lemma {:induction false} AllDeadLetteredOnFailure(batch: seq<Entry>, h: Handler)
    requires HasData(batch)
    requires forall d: Delivery :: !h(d)
    ensures |DeadLetters(batch, h)| == |batch|
    ensures forall i :: 0 <= i < |batch| ==> DeadLetters(batch, h)[i] == map[DataField := Payload(batch[i])]
    ensures |BatchTrace(batch, h)| == MaxAttempts * |batch|
    decreases |batch|
  {
    if batch != [] {
      var prefix := batch[..|batch| - 1];
      var e := batch[|batch| - 1];
      HasDataPrefix(batch, |batch| - 1);
      AllDeadLetteredOnFailure(prefix, h);
      AttemptCount(h, e.id, OrderOf(e));
      forall i | 0 <= i < |batch| ensures DeadLetters(batch, h)[i] == map[DataField := Payload(batch[i])] {
        if i < |prefix| { assert batch[i] == prefix[i]; }
      }
    }
  }

  // ---------------------------------------------------------------------
  // One iteration of the consumer loop

  lemma NewEntriesHaveData(s: Snapshot, key: GroupKey)
    requires HasData(Entries(s, key.stream))
    ensures HasData(NewEntries(s, key))
  {
    if key in s.groups {
      var es := Entries(s, key.stream);
      var batch := NewEntries(s, key);
      AfterMembers(es, s.groups[key].lastDelivered);
      forall i | 0 <= i < |batch| ensures DataField in batch[i].fields {
        assert batch[i] in es;
      }
    }
  }

  /** The store after one iteration: an error reply or a timeout processes
      nothing; a batch is read (and so marked pending) and then processed
      message by message. A read that never reached the store changes
      nothing; a read whose reply was lost has still been applied by the
      store, but the client processes nothing. */
  function ConsumeStep(s: Snapshot, key: GroupKey, consumer: string, h: Handler, fault: Fault): Snapshot
    requires HasData(Entries(s, key.stream))
  {
    if fault == Unsent then s
    else if fault == ReplyLost then ReadGroup(s, key, consumer)
    else match ReadGroupReply(s, key)
      case Messages(batch) =>
        NewEntriesHaveData(s, key);
        HandledAll(ReadGroup(s, key, consumer), key, batch, h)
      case _ => s
  }

  /** The handler calls of one iteration. */
  function StepTrace(s: Snapshot, key: GroupKey, h: Handler, fault: Fault): seq<Delivery>
    requires HasData(Entries(s, key.stream))
  {
    if fault != NoFault then []
    else match ReadGroupReply(s, key)
      case Messages(batch) =>
        NewEntriesHaveData(s, key);
        BatchTrace(batch, h)
      case _ => []
  }

  /** The consumer never writes to the stream it reads. */
  lemma ConsumeStepKeepsStream(s: Snapshot, key: GroupKey, consumer: string, h: Handler, fault: Fault)
    requires HasData(Entries(s, key.stream))
    ensures Entries(ConsumeStep(s, key, consumer, h, fault), key.stream) == Entries(s, key.stream)
  {
    if fault == NoFault && ReadGroupReply(s, key).Messages? {
      NewEntriesHaveData(s, key);
      HandledAllStreams(ReadGroup(s, key, consumer), key, NewEntries(s, key), h);
    }
  }

  /** One iteration that reads a batch from a bootstrapped group leaves none
      of its ids pending, whatever the handler returned, and moves the cursor
      to the last delivered id. */
  lemma ConsumeStepAcksBatch(s: Snapshot, key: GroupKey, consumer: string, h: Handler)
    requires WellFormed(s) && key in s.groups
    requires HasData(Entries(s, key.stream))
    requires ReadGroupReply(s, key).Messages?
    ensures var r := ConsumeStep(s, key, consumer, h, NoFault);
      var batch := ReadGroupReply(s, key).entries;
      && key in r.groups
      && r.groups[key].pending == s.groups[key].pending - Ids(batch)
      && r.groups[key].lastDelivered == batch[|batch| - 1].id
  {
    ReadGroupMarksPending(s, key, consumer);
    var batch := NewEntries(s, key);
    NewEntriesHaveData(s, key);
    var mid := ReadGroup(s, key, consumer);
    assert ConsumeStep(s, key, consumer, h, NoFault) == HandledAll(mid, key, batch, h);
    HandledAllGroups(mid, key, batch, h);
    PlusMinus(s.groups[key].pending, map id | id in Ids(batch) :: consumer, Ids(batch));
  }

  /** After an iteration that reads a batch, the group never delivers those
      entries again: the next read finds nothing until something new is
      appended. */
  lemma ConsumeStepDrains(s: Snapshot, key: GroupKey, consumer: string, h: Handler)
    requires WellFormed(s) && key in s.groups
    requires HasData(Entries(s, key.stream))
    requires ReadGroupReply(s, key).Messages?
    ensures ReadGroupReply(ConsumeStep(s, key, consumer, h, NoFault), key) == NoData
  {
    ReadGroupMarksPending(s, key, consumer);
    var batch := NewEntries(s, key);
    NewEntriesHaveData(s, key);
    var mid := ReadGroup(s, key, consumer);
    var r := HandledAll(mid, key, batch, h);
    assert ConsumeStep(s, key, consumer, h, NoFault) == r;
    HandledAllStreams(mid, key, batch, h);
    HandledAllGroups(mid, key, batch, h);
    ReadGroupDrains(s, key, consumer);
    assert Entries(r, key.stream) == Entries(mid, key.stream);
    assert r.groups[key].lastDelivered == mid.groups[key].lastDelivered;
    assert NewEntries(r, key) == NewEntries(mid, key);
  }

  /** A group with no message pending still has none after an iteration
      whose read reply arrives, or that never reached the store: every
      message the iteration delivers is acknowledged within it. When the
      reply of a read that delivered is lost, exactly that batch is left
      pending. */
  lemma ConsumeStepKeepsNothingPending(s: Snapshot, key: GroupKey, consumer: string, h: Handler, fault: Fault)
    requires WellFormed(s) && key in s.groups && s.groups[key].pending == map[]
    requires HasData(Entries(s, key.stream))
    ensures var r := ConsumeStep(s, key, consumer, h, fault);
      && key in r.groups
      && (fault != ReplyLost || !ReadGroupReply(s, key).Messages? ==> r.groups[key].pending == map[])
      && (fault == ReplyLost && ReadGroupReply(s, key).Messages? ==>
            r.groups[key].pending.Keys == Ids(ReadGroupReply(s, key).entries))
  {
    ReadGroupMarksPending(s, key, consumer);
    if fault == NoFault && ReadGroupReply(s, key).Messages? {
      ConsumeStepAcksBatch(s, key, consumer, h);
      var none := s.groups[key].pending;
      assert none - Ids(ReadGroupReply(s, key).entries) == none;
    }
  }

  /** One iteration that reads a batch never writes to the stream it reads
      or any stream but the dead-letter one, and grows the dead-letter
      stream by exactly the batch's dead letters, in delivery order. */
  lemma ConsumeStepDeadLetters(s: Snapshot, key: GroupKey, consumer: string, h: Handler)
    requires WellFormed(s) && key in s.groups
    requires HasData(Entries(s, key.stream))
    requires ReadGroupReply(s, key).Messages?
    ensures var r := ConsumeStep(s, key, consumer, h, NoFault);
      var batch := ReadGroupReply(s, key).entries;
      var dlq := DeadLetterStream(key.stream);
      && WellFormed(r)
      && HasData(batch)
      && (forall n :: n != dlq ==> Entries(r, n) == Entries(s, n))
      && FieldsOf(Entries(r, dlq)) == FieldsOf(Entries(s, dlq)) + DeadLetters(batch, h)
  {
    ReadGroupMarksPending(s, key, consumer);
    var batch := NewEntries(s, key);
    NewEntriesHaveData(s, key);
    var mid := ReadGroup(s, key, consumer);
    assert ConsumeStep(s, key, consumer, h, NoFault) == HandledAll(mid, key, batch, h);
    HandledAllStreams(mid, key, batch, h);
    HandledAllWellFormed(mid, key, batch, h);
    assert WellFormed(mid);
  }

  /** The store after bounded iterations of the consumer loop, one per
      entry of `faults` (how that iteration's read fails, if it does). The stream
      being consumed is never written, so every entry on it keeps its
      "data" field. */
  function Rounds(s: Snapshot, key: GroupKey, consumer: string, h: Handler, faults: seq<Fault>): (r: Snapshot)
    requires HasData(Entries(s, key.stream))
    ensures Entries(r, key.stream) == Entries(s, key.stream)
    decreases |faults|
  {
    if faults == [] then s
    else
      var prev := Rounds(s, key, consumer, h, faults[..|faults| - 1]);
      ConsumeStepKeepsStream(prev, key, consumer, h, faults[|faults| - 1]);
      ConsumeStep(prev, key, consumer, h, faults[|faults| - 1])
  }

  /** The handler calls of those iterations, in order. */
  function RoundsTrace(s: Snapshot, key: GroupKey, consumer: string, h: Handler, faults: seq<Fault>): seq<Delivery>
    requires HasData(Entries(s, key.stream))
    decreases |faults|
  {
    if faults == [] then []
    else
      var prefix := faults[..|faults| - 1];
      RoundsTrace(s, key, consumer, h, prefix)
        + StepTrace(Rounds(s, key, consumer, h, prefix), key, h, faults[|faults| - 1])
  }

  /** The first `k + 1` iterations are the first `k` followed by one more. */
  lemma RoundsSnoc(s: Snapshot, key: GroupKey, consumer: string, h: Handler, faults: seq<Fault>, k: nat)
    requires HasData(Entries(s, key.stream)) && k < |faults|
    ensures var prev := Rounds(s, key, consumer, h, faults[..k]);
      && Rounds(s, key, consumer, h, faults[..k + 1]) == ConsumeStep(prev, key, consumer, h, faults[k])
      && RoundsTrace(s, key, consumer, h, faults[..k + 1])
           == RoundsTrace(s, key, consumer, h, faults[..k]) + StepTrace(prev, key, h, faults[k])
  {
    assert faults[..k + 1][..k] == faults[..k];
  }

  /** A single iteration. */
  lemma RoundsOne(s: Snapshot, key: GroupKey, consumer: string, h: Handler, fault: Fault)
    requires HasData(Entries(s, key.stream))
    ensures Rounds(s, key, consumer, h, [fault]) == ConsumeStep(s, key, consumer, h, fault)
    ensures RoundsTrace(s, key, consumer, h, [fault]) == StepTrace(s, key, h, fault)
  {
    assert [fault][..0] == [];
  }

  /** With nothing new to read, iterations change nothing and call no
      handler, whichever of them fail. */
  lemma {:induction false} RoundsIdle(s: Snapshot, key: GroupKey, consumer: string, h: Handler, faults: seq<Fault>)
    requires HasData(Entries(s, key.stream)) && !ReadGroupReply(s, key).Messages?
    ensures Rounds(s, key, consumer, h, faults) == s
    ensures RoundsTrace(s, key, consumer, h, faults) == []
    decreases |faults|
  {
    if faults != [] {
      RoundsIdle(s, key, consumer, h, faults[..|faults| - 1]);
    }
  }

  /** No message is delivered twice: after one iteration whose read
      succeeds, further iterations call the handler no more until something
      new is appended to the stream. */
  lemma NoRedelivery(s: Snapshot, key: GroupKey, consumer: string, h: Handler, faults: seq<Fault>)
    requires WellFormed(s) && key in s.groups
    requires HasData(Entries(s, key.stream))
    ensures var r := ConsumeStep(s, key, consumer, h, NoFault);
      && HasData(Entries(r, key.stream))
      && RoundsTrace(r, key, consumer, h, faults) == []
  {
    ConsumeStepKeepsStream(s, key, consumer, h, NoFault);
    if ReadGroupReply(s, key).Messages? {
      ConsumeStepDrains(s, key, consumer, h);
    }
    RoundsIdle(ConsumeStep(s, key, consumer, h, NoFault), key, consumer, h, faults);
  }

  /** The store after the consumer's group bootstrap: the group is created
      unless the request never reached the store. */
  function Bootstrapped(s: Snapshot, key: GroupKey, fault: Fault): (r: Snapshot)
    ensures forall n :: Entries(r, n) == Entries(s, n)
    ensures fault != Unsent && key !in s.groups ==> key in r.groups && r.groups[key] == GroupState(0, map[])
  {
    CreateGroupIdempotent(s, key);
    if fault == Unsent then s else CreateGroup(s, key)
  }

  /** A consumer whose bootstrap failed on a store without the group never
      calls the handler, however long it runs: every read is answered
      NOGROUP and skipped. */
  lemma FailedBootstrapStarves(s: Snapshot, key: GroupKey, consumer: string, h: Handler, faults: seq<Fault>)
    requires HasData(Entries(s, key.stream)) && key !in s.groups
    ensures Bootstrapped(s, key, Unsent) == s
    ensures Rounds(s, key, consumer, h, faults) == s
    ensures RoundsTrace(s, key, consumer, h, faults) == []
  {
    assert ReadGroupReply(s, key) == ReadError(NoGroup);
    RoundsIdle(s, key, consumer, h, faults);
  }

  /** The ids a read delivers all lie past the group's cursor. */
  lemma BatchIdsPastCursor(s: Snapshot, key: GroupKey)
    requires WellFormed(s) && key in s.groups
    requires ReadGroupReply(s, key).Messages?
    ensures forall id :: id in Ids(ReadGroupReply(s, key).entries) ==> id > s.groups[key].lastDelivered
  {
    ReadGroupDelivers(s, key);
    IdsMembers(ReadGroupReply(s, key).entries);
  }

  /** Every handler call for a batch is about one of the batch's messages. */
  lemma {:induction false} BatchTraceMessages(batch: seq<Entry>, h: Handler)
    requires HasData(batch)
    ensures forall d :: d in BatchTrace(batch, h) ==> d.message in Ids(batch)
    decreases |batch|
  {
    if batch != [] {
      var prefix := batch[..|batch| - 1];
      var e := batch[|batch| - 1];
      HasDataPrefix(batch, |batch| - 1);
      BatchTraceMessages(prefix, h);
      var t := AttemptTrace(h, e.id, OrderOf(e));
      assert forall d :: d in t ==> d.message == e.id;
    }
  }

  /** A message pending at or before the cursor stays pending through one
      iteration, whatever happens in it, and the handler is not called for
      it: later reads with ">" deliver only entries past the cursor. */
  lemma StepKeepsStranded(s: Snapshot, key: GroupKey, consumer: string, h: Handler, fault: Fault, id: EntryId)
    requires WellFormed(s) && key in s.groups && HasData(Entries(s, key.stream))
    requires id in s.groups[key].pending && id <= s.groups[key].lastDelivered
    ensures var r := ConsumeStep(s, key, consumer, h, fault);
      && WellFormed(r) && key in r.groups && HasData(Entries(r, key.stream))
      && id in r.groups[key].pending && id <= r.groups[key].lastDelivered
      && (forall d :: d in StepTrace(s, key, h, fault) ==> d.message != id)
  {
    ConsumeStepKeepsStream(s, key, consumer, h, fault);
    ReadGroupMarksPending(s, key, consumer);
    if fault != Unsent && ReadGroupReply(s, key).Messages? {
      var batch := ReadGroupReply(s, key).entries;
      BatchIdsPastCursor(s, key);
      assert id !in Ids(batch);
      if fault == NoFault {
        NewEntriesHaveData(s, key);
        ConsumeStepAcksBatch(s, key, consumer, h);
        ConsumeStepDeadLetters(s, key, consumer, h);
        BatchTraceMessages(batch, h);
      }
    }
  }

  /** A message whose delivery reply was lost is never handled: it stays
      pending through every later iteration and no handler call is about
      it. The loop only ever reads ">", which skips pending entries. */
  lemma {:induction false} StrandedNeverHandled(s: Snapshot, key: GroupKey, consumer: string, h: Handler,
                                                faults: seq<Fault>, id: EntryId)
    requires WellFormed(s) && key in s.groups && HasData(Entries(s, key.stream))
    requires id in s.groups[key].pending && id <= s.groups[key].lastDelivered
    ensures var r := Rounds(s, key, consumer, h, faults);
      && WellFormed(r) && key in r.groups
      && id in r.groups[key].pending && id <= r.groups[key].lastDelivered
      && (forall d :: d in RoundsTrace(s, key, consumer, h, faults) ==> d.message != id)
    decreases |faults|
  {
    if faults != [] {
      var prefix := faults[..|faults| - 1];
      StrandedNeverHandled(s, key, consumer, h, prefix, id);
      var prev := Rounds(s, key, consumer, h, prefix);
      StepKeepsStranded(prev, key, consumer, h, faults[|faults| - 1], id);
    }
  }

  /** A read whose reply is lost strands its whole batch: every delivered id
      is pending and at or before the cursor, and no handler is called. */
  lemma LostReplyStrands(s: Snapshot, key: GroupKey, consumer: string, h: Handler)
    requires WellFormed(s) && key in s.groups && HasData(Entries(s, key.stream))
    requires ReadGroupReply(s, key).Messages?
    ensures var r := ConsumeStep(s, key, consumer, h, ReplyLost);
      && WellFormed(r) && key in r.groups
      && StepTrace(s, key, h, ReplyLost) == []
      && forall e :: e in ReadGroupReply(s, key).entries ==>
           e.id in r.groups[key].pending && e.id <= r.groups[key].lastDelivered
  {
    assert ConsumeStep(s, key, consumer, h, ReplyLost) == ReadGroup(s, key, consumer);
    ReadGroupMarksPending(s, key, consumer);
    BatchWithinCursor(s, key);
  }

  /** Processing a batch moves no cursor past the last id: it only
      acknowledges and appends dead letters. */
  lemma {:induction false} HandledAllCursorsBehind(s: Snapshot, key: GroupKey, batch: seq<Entry>, h: Handler)
    requires HasData(batch) && CursorsBehind(s)
    ensures CursorsBehind(HandledAll(s, key, batch, h))
    decreases |batch|
  {
    if batch != [] {
      HasDataPrefix(batch, |batch| - 1);
      HandledAllCursorsBehind(s, key, batch[..|batch| - 1], h);
    }
  }

  /** One iteration, whatever its fault, keeps the store well formed, the
      group in place and every cursor at or behind the last id. */
  lemma StepKeepsCursorsBehind(s: Snapshot, key: GroupKey, consumer: string, h: Handler, fault: Fault)
    requires WellFormed(s) && CursorsBehind(s) && key in s.groups && HasData(Entries(s, key.stream))
    ensures var r := ConsumeStep(s, key, consumer, h, fault);
      && WellFormed(r) && CursorsBehind(r) && key in r.groups && HasData(Entries(r, key.stream))
  {
    ConsumeStepKeepsStream(s, key, consumer, h, fault);
    ReadGroupMarksPending(s, key, consumer);
    CursorsBehindKept(s, key, consumer, key.stream, map[], 0);
    if fault == NoFault && ReadGroupReply(s, key).Messages? {
      var batch := NewEntries(s, key);
      NewEntriesHaveData(s, key);
      var mid := ReadGroup(s, key, consumer);
      assert ConsumeStep(s, key, consumer, h, NoFault) == HandledAll(mid, key, batch, h);
      HandledAllCursorsBehind(mid, key, batch, h);
      ConsumeStepDeadLetters(s, key, consumer, h);
      ConsumeStepAcksBatch(s, key, consumer, h);
    }
  }

  /** The same through any number of iterations. */
  lemma {:induction false} RoundsKeepCursorsBehind(s: Snapshot, key: GroupKey, consumer: string, h: Handler,
                                                   faults: seq<Fault>)
    requires WellFormed(s) && CursorsBehind(s) && key in s.groups && HasData(Entries(s, key.stream))
    ensures var r := Rounds(s, key, consumer, h, faults);
      && WellFormed(r) && CursorsBehind(r) && key in r.groups && HasData(Entries(r, key.stream))
    decreases |faults|
  {
    if faults != [] {
      var prefix := faults[..|faults| - 1];
      RoundsKeepCursorsBehind(s, key, consumer, h, prefix);
      StepKeepsCursorsBehind(Rounds(s, key, consumer, h, prefix), key, consumer, h, faults[|faults| - 1]);
    }
  }

  // ---------------------------------------------------------------------
  // Producer and consumer together

  /** Produce writes an entry the consumer can read: the one field "data". */
  lemma ProduceKeepsData(s: Snapshot, name: string, o: Order)
    requires HasData(Entries(s, name))
    ensures HasData(Entries(Append(s, name, map[DataField := Encode(o)]), name))
  {
    HasDataAppend(Entries(s, name), Entry(s.lastId + 1, map[DataField := Encode(o)]));
  }

  /** An order produced before the group exists is delivered by the first
      read after bootstrap, and the handler's first attempt for it receives
      the same id and contents. */
  lemma ProducedOrderReachesHandler(s: Snapshot, key: GroupKey, o: Order, h: Handler)
    requires WellFormed(s) && key !in s.groups
    requires HasData(Entries(s, key.stream))
    ensures var s1 := Append(s, key.stream, map[DataField := Encode(o)]);
      var s2 := CreateGroup(s1, key);
      && HasData(Entries(s2, key.stream))
      && ReadGroupReply(s2, key) == Messages(Entries(s1, key.stream))
      && Delivery(s1.lastId, o, 0) in StepTrace(s2, key, h, NoFault)
  {
    var fields := map[DataField := Encode(o)];
    var s1 := Append(s, key.stream, fields);
    var s2 := CreateGroup(s1, key);
    var e := Entry(s1.lastId, fields);
    CreatedAfterAppend(s, key, fields);
    BatchTraceSnoc(Entries(s, key.stream), e, h);
    UnmarshalEncode(o);
    assert OrderOf(e) == o;
    AttemptCount(h, e.id, o);
    assert StepTrace(s2, key, h, NoFault) == BatchTrace(Entries(s, key.stream) + [e], h);
    assert AttemptTrace(h, e.id, o)[0] == Delivery(s1.lastId, o, 0);
  }

  /** An order produced while the group is running is delivered by the
      next read, behind whatever the group had not yet read, and reaches
      the handler's first attempt with the same id and contents; for a
      consumer that had caught up it is the only message of that read. */
  lemma ProducedWhileRunning(s: Snapshot, key: GroupKey, o: Order, h: Handler)
    requires WellFormed(s) && CursorsBehind(s) && key in s.groups
    requires HasData(Entries(s, key.stream))
    ensures var s1 := Append(s, key.stream, map[DataField := Encode(o)]);
      var e := Entry(s1.lastId, map[DataField := Encode(o)]);
      && HasData(Entries(s1, key.stream))
      && ReadGroupReply(s1, key) == Messages(NewEntries(s, key) + [e])
      && Delivery(s1.lastId, o, 0) in StepTrace(s1, key, h, NoFault)
      && (NewEntries(s, key) == [] ==> StepTrace(s1, key, h, NoFault) == AttemptTrace(h, s1.lastId, o))
  {
    var fields := map[DataField := Encode(o)];
    var s1 := Append(s, key.stream, fields);
    var e := Entry(s1.lastId, fields);
    ProduceKeepsData(s, key.stream, o);
    AppendReachesGroup(s, key, fields);
    NewEntriesHaveData(s, key);
    BatchTraceSnoc(NewEntries(s, key), e, h);
    UnmarshalEncode(o);
    assert OrderOf(e) == o;
    AttemptCount(h, e.id, o);
    assert StepTrace(s1, key, h, NoFault) == BatchTrace(NewEntries(s, key) + [e], h);
    assert AttemptTrace(h, e.id, o)[0] == Delivery(s1.lastId, o, 0);
  }

  /** The deployment order of events: the consumer bootstraps and runs any
      number of iterations, whatever their faults, and only then is an order
      produced. The next iteration hands it to the handler if its read
      succeeds; if instead that read's reply is lost, the order is left
      pending at or behind the cursor, where `StrandedNeverHandled` says no
      later iteration ever hands it over. */
  lemma RunningConsumerReceives(s: Snapshot, key: GroupKey, consumer: string, h: Handler,
                                bootFault: Fault, faults: seq<Fault>, o: Order)
    requires WellFormed(s) && CursorsBehind(s) && HasData(Entries(s, key.stream))
    requires bootFault != Unsent || key in s.groups
    ensures var running := Rounds(Bootstrapped(s, key, bootFault), key, consumer, h, faults);
      var s1 := Append(running, key.stream, map[DataField := Encode(o)]);
      && HasData(Entries(s1, key.stream))
      && Delivery(s1.lastId, o, 0) in StepTrace(s1, key, h, NoFault)
      && var lost := ConsumeStep(s1, key, consumer, h, ReplyLost);
         && StepTrace(s1, key, h, ReplyLost) == []
         && WellFormed(lost) && key in lost.groups && HasData(Entries(lost, key.stream))
         && s1.lastId in lost.groups[key].pending && s1.lastId <= lost.groups[key].lastDelivered
  {
    var boot := Bootstrapped(s, key, bootFault);
    CreateGroupIdempotent(s, key);
    CursorsBehindKept(s, key, consumer, key.stream, map[], 0);
    RoundsKeepCursorsBehind(boot, key, consumer, h, faults);
    var running := Rounds(boot, key, consumer, h, faults);
    var fields := map[DataField := Encode(o)];
    ProducedWhileRunning(running, key, o, h);
    var s1 := Append(running, key.stream, fields);
    AppendWellFormed(running, key.stream, fields);
    LostReplyStrands(s1, key, consumer, h);
    ConsumeStepKeepsStream(s1, key, consumer, h, ReplyLost);
    assert Entry(s1.lastId, fields) in ReadGroupReply(s1, key).entries;
  }

  /** The store the repository's test starts from: the order produced
      into an empty store, then the group bootstrapped. */
  function ProducedAndBootstrapped(key: GroupKey, o: Order): (s: Snapshot)
    ensures WellFormed(s) && key in s.groups
    ensures Entries(s, key.stream) == [Entry(1, map[DataField := Encode(o)])]
    ensures s.groups[key] == GroupState(0, map[])
    ensures Entries(s, DeadLetterStream(key.stream)) == []
  {
    AppendWellFormed(EmptyStore, key.stream, map[DataField := Encode(o)]);
    CreateGroup(Append(EmptyStore, key.stream, map[DataField := Encode(o)]), key)
  }

  /** In that store the handler is called with the produced order, exactly
      as AttemptTrace says. */
  lemma FreshStoreTrace(key: GroupKey, o: Order, h: Handler)
    ensures HasData(Entries(ProducedAndBootstrapped(key, o), key.stream))
    ensures StepTrace(ProducedAndBootstrapped(key, o), key, h, NoFault) == AttemptTrace(h, 1, o)
  {
    var s := ProducedAndBootstrapped(key, o);
    var e := Entry(1, map[DataField := Encode(o)]);
    FreshStoreReply(key, o);
    BatchTraceOfOne(e, h);
    UnmarshalEncode(o);
    assert OrderOf(e) == o;
    assert StepTrace(s, key, h, NoFault) == BatchTrace([e], h);
  }

  /** In that store a handler that accepts at once is called exactly once,
      with the produced order. */
  lemma FreshStoreSucceeds(key: GroupKey, o: Order, h: Handler)
    requires h(Delivery(1, o, 0))
    ensures HasData(Entries(ProducedAndBootstrapped(key, o), key.stream))
    ensures StepTrace(ProducedAndBootstrapped(key, o), key, h, NoFault) == [Delivery(1, o, 0)]
  {
    FreshStoreTrace(key, o, h);
    AttemptsAtFirstSuccess(h, 1, o, 0);
  }

  lemma FreshStoreReply(key: GroupKey, o: Order)
    ensures ReadGroupReply(ProducedAndBootstrapped(key, o), key) == Messages([Entry(1, map[DataField := Encode(o)])])
  {
    AfterAll([Entry(1, map[DataField := Encode(o)])], 0);
  }

  /** After one iteration in that store the message is no longer pending. */
  lemma FreshStoreAcked(key: GroupKey, consumer: string, o: Order, h: Handler)
    ensures HasData(Entries(ProducedAndBootstrapped(key, o), key.stream))
    ensures var r := ConsumeStep(ProducedAndBootstrapped(key, o), key, consumer, h, NoFault);
      key in r.groups && r.groups[key].pending == map[]
  {
    ConsumeStepKeepsNothingPending(ProducedAndBootstrapped(key, o), key, consumer, h, NoFault);
  }

  /** After one iteration in that store the dead-letter stream holds the
      raw payload exactly when every attempt failed. */
  lemma FreshStoreDeadLetters(key: GroupKey, consumer: string, o: Order, h: Handler)
    ensures HasData(Entries(ProducedAndBootstrapped(key, o), key.stream))
    ensures var r := ConsumeStep(ProducedAndBootstrapped(key, o), key, consumer, h, NoFault);
      FieldsOf(Entries(r, DeadLetterStream(key.stream)))
        == if Succeeds(h, 1, o) then [] else [map[DataField := Encode(o)]]
  {
    var s := ProducedAndBootstrapped(key, o);
    var e := Entry(1, map[DataField := Encode(o)]);
    FreshStoreReply(key, o);
    assert HasData([e]);
    ConsumeStepDeadLetters(s, key, consumer, h);
    UnmarshalEncode(o);
    DeadLettersOfOne(e, h);
    assert FieldsOf(Entries(s, DeadLetterStream(key.stream))) == [];
  }

  // ---------------------------------------------------------------------
  // The client object

  class RedisStream {
    const client: Store
    const stream: string
    const group: string

    constructor (client: Store, stream: string, group: string)
      ensures this.client == client && this.stream == stream && this.group == group
    {
      this.client := client;
      this.stream := stream;
      this.group := group;
    }

    function Key(): GroupKey {
      GroupKey(stream, group)
    }

    /** Encodes the order and appends `{"data": payload}` to the stream; the
        marshalling error is ignored, a transport failure is returned. When
        the reply is lost the entry has been appended all the same. */
    method Produce(o: Order, fault: Fault) returns (err: Option<StoreError>)
      requires client.Valid()
      modifies client
      ensures client.Valid()
      ensures err == if fault == NoFault then None else Some(Transport)
      ensures fault == Unsent ==> client.State() == old(client.State())
      ensures fault != Unsent ==> client.State() == Append(old(client.State()), stream, map[DataField := Encode(o)])
      ensures fault != Unsent ==> Entries(client.State(), stream) == Entries(old(client.State()), stream) + [Entry(client.lastId, map[DataField := Encode(o)])]
      ensures forall n :: n != stream ==> Entries(client.State(), n) == Entries(old(client.State()), n)
      ensures HasData(Entries(old(client.State()), stream)) ==> HasData(Entries(client.State(), stream))
    {
      var data := Encode(o);
      if fault == Unsent {
        err := Some(Transport);
        return;
      }
      if HasData(Entries(client.State(), stream)) {
        ProduceKeepsData(client.State(), stream, o);
      }
      var id := client.XAdd(stream, map[DataField := data]);
      err := if fault == NoFault then None else Some(Transport);
    }

    /** Creates the group at offset "0" if it is absent. Every error is
        ignored: the BUSYGROUP reply for an existing group, and a transport
        failure as well, after which the group may not exist. */
    method Bootstrap(fault: Fault)
      requires client.Valid()
      modifies client
      ensures client.Valid()
      ensures client.State() == Bootstrapped(old(client.State()), Key(), fault)
      ensures fault != Unsent ==> Key() in client.State().groups
    {
      if fault == Unsent {
        return;
      }
      var err := client.XGroupCreateMkStream(Key());
    }

    /** Calls the handler until it succeeds, at most MaxAttempts times; then
        acknowledges, after first dead-lettering the raw payload if no call
        succeeded. The XADD and XACK replies are ignored. */
    method ProcessMessage(message: Entry, handler: Handler) returns (success: bool, calls: seq<Delivery>)
      requires client.Valid() && DataField in message.fields
      modifies client
      ensures client.Valid()
      ensures success == Succeeds(handler, message.id, OrderOf(message))
      ensures calls == AttemptTrace(handler, message.id, OrderOf(message))
      ensures client.State() == Handled(old(client.State()), Key(), message, handler)
    {
      var raw := message.fields[DataField];
      var o := Unmarshal(raw);
      success := false;
      calls := [];
      var i := 0;
      while i < MaxAttempts
        invariant 0 <= i <= MaxAttempts
        invariant |calls| == i && forall j :: 0 <= j < i ==> calls[j] == Delivery(message.id, o, j)
        invariant forall j :: 0 <= j < i ==> !handler(Delivery(message.id, o, j))
      {
        calls := calls + [Delivery(message.id, o, i)];
        if handler(Delivery(message.id, o, i)) {
          success := true;
          break;
        }
        i := i + 1;
      }
      AttemptCount(handler, message.id, o);
      if success {
        AttemptsAtFirstSuccess(handler, message.id, o, i);
      }
      assert calls == AttemptTrace(handler, message.id, o);
      if success {
        var count := client.XAck(Key(), message.id);
      } else {
        var id := client.XAdd(DeadLetterStream(stream), map[DataField := raw]);
        var count := client.XAck(Key(), message.id);
      }
    }

    /** Processes the messages of one read, sequentially, in delivery order. */
    method ProcessBatch(batch: seq<Entry>, handler: Handler) returns (calls: seq<Delivery>)
      requires client.Valid() && HasData(batch)
      modifies client
      ensures client.Valid()
      ensures client.State() == HandledAll(old(client.State()), Key(), batch, handler)
      ensures calls == BatchTrace(batch, handler)
    {
      calls := [];
      var k := 0;
      while k < |batch|
        invariant 0 <= k <= |batch|
        invariant client.Valid()
        invariant HasData(batch[..k])
        invariant client.State() == HandledAll(old(client.State()), Key(), batch[..k], handler)
        invariant calls == BatchTrace(batch[..k], handler)
      {
        assert batch[..k + 1][..k] == batch[..k];
        HasDataPrefix(batch, k + 1);
        var success, c := ProcessMessage(batch[k], handler);
        calls := calls + c;
        k := k + 1;
      }
      assert batch[..k] == batch;
    }

    /** One iteration of the consumer loop: a blocking ">" read, then the
        batch. A timeout is an empty batch; any other read error (or a
        transport failure) skips the iteration. */
    method ConsumeOnce(consumer: string, handler: Handler, fault: Fault) returns (reply: ReadReply, calls: seq<Delivery>)
      requires client.Valid() && HasData(Entries(client.State(), stream))
      modifies client
      ensures client.Valid()
      ensures reply == if fault != NoFault then ReadError(Transport) else ReadGroupReply(old(client.State()), Key())
      ensures client.State() == ConsumeStep(old(client.State()), Key(), consumer, handler, fault)
      ensures calls == StepTrace(old(client.State()), Key(), handler, fault)
    {
      if fault == Unsent {
        reply := ReadError(Transport);
        calls := [];
        return;
      }
      if fault == ReplyLost {
        var lost := client.XReadGroup(Key(), consumer);
        reply := ReadError(Transport);
        calls := [];
        return;
      }
      ghost var before := client.State();
      NewEntriesHaveData(before, Key());
      reply := client.XReadGroup(Key(), consumer);
      match reply {
        case Messages(batch) =>
          calls := ProcessBatch(batch, handler);
        case NoData =>
          calls := [];
        case ReadError(_) =>
          calls := [];
      }
    }

    /** The consumer: bootstrap the group, then run the loop; here for one
        iteration per entry of `faults`, since the loop itself never ends. */
    method Consume(consumer: string, handler: Handler, bootFault: Fault, faults: seq<Fault>) returns (calls: seq<Delivery>)
      requires client.Valid() && HasData(Entries(client.State(), stream))
      modifies client
      ensures client.Valid()
      ensures client.State() == Rounds(Bootstrapped(old(client.State()), Key(), bootFault), Key(), consumer, handler, faults)
      ensures calls == RoundsTrace(Bootstrapped(old(client.State()), Key(), bootFault), Key(), consumer, handler, faults)
    {
      CreateGroupIdempotent(client.State(), Key());
      Bootstrap(bootFault);
      ghost var start := client.State();
      calls := [];
      var k := 0;
      while k < |faults|
        invariant 0 <= k <= |faults|
        invariant client.Valid()
        invariant client.State() == Rounds(start, Key(), consumer, handler, faults[..k])
        invariant calls == RoundsTrace(start, Key(), consumer, handler, faults[..k])
      {
        RoundsSnoc(start, Key(), consumer, handler, faults, k);
        var reply, c := ConsumeOnce(consumer, handler, faults[k]);
        calls := calls + c;
        k := k + 1;
      }
      assert faults[..k] == faults;
    }
  }
}
