/**
 * Clients of RedisStream that follow internal/stream/stream_test.go: an
 * order (the test uses {ID "abc", Item "Test", Amount 10}; here any order)
 * is produced into a fresh store before the group exists, then the
 * consumer runs one iteration. Everything promised here follows from the
 * contracts of the methods and the lemmas of module Stream.
 */
module StreamScenarios {
  import opened Wrappers
  import opened OrderCodec
  import opened LogStore
  import opened Stream

  /** The handler succeeds at once: it is called once, with the produced
      order; the message is acknowledged and the dead-letter stream stays
      empty. */
  method SuccessPath(sent: Order)
    returns (err: Option<StoreError>, calls: seq<Delivery>, pending: map<EntryId, string>, dead: seq<Fields>)
    ensures err == None
    ensures calls == [Delivery(1, sent, 0)]
    ensures pending == map[]
    ensures dead == []
  {
    var store := new Store();
    var rs := new RedisStream(store, "test-orders", "test-group");
    err := rs.Produce(sent, NoFault);
    var h: Handler := d => true;
    var key := GroupKey("test-orders", "test-group");
    ghost var start := ProducedAndBootstrapped(key, sent);
    assert start == CreateGroup(store.State(), key);
    assert start == Bootstrapped(store.State(), key, NoFault);
    calls := rs.Consume("test-consumer", h, NoFault, [NoFault]);

    RoundsOne(start, key, "test-consumer", h, NoFault);
    ghost var after := ConsumeStep(start, key, "test-consumer", h, NoFault);
    assert store.State() == after;
    FreshStoreSucceeds(key, sent, h);
    FreshStoreAcked(key, "test-consumer", sent, h);
    pending := store.groups[key].pending;
    FreshStoreDeadLetters(key, "test-consumer", sent, h);
    dead := FieldsOf(Entries(store.State(), DeadLetterStream(key.stream)));
  }

  /** The handler always fails: it is called three times, the raw payload
      lands in the dead-letter stream, and the original is acknowledged. */
  method FailurePath(sent: Order)
    returns (err: Option<StoreError>, calls: seq<Delivery>, pending: map<EntryId, string>, dead: seq<Fields>)
    ensures err == None
    ensures calls == [Delivery(1, sent, 0), Delivery(1, sent, 1), Delivery(1, sent, 2)]
    ensures pending == map[]
    ensures dead == [map[DataField := Encode(sent)]]
    ensures Unmarshal(dead[0][DataField]) == sent
  {
    var store := new Store();
    var rs := new RedisStream(store, "test-orders", "test-group");
    err := rs.Produce(sent, NoFault);
    var h: Handler := d => false;
    var key := GroupKey("test-orders", "test-group");
    ghost var start := ProducedAndBootstrapped(key, sent);
    assert start == CreateGroup(store.State(), key);
    assert start == Bootstrapped(store.State(), key, NoFault);
    calls := rs.Consume("test-consumer", h, NoFault, [NoFault]);

    RoundsOne(start, key, "test-consumer", h, NoFault);
    ghost var after := ConsumeStep(start, key, "test-consumer", h, NoFault);
    assert store.State() == after;
    FreshStoreTrace(key, sent, h);
    assert !Succeeds(h, 1, sent);
    AttemptsAllFail(h, 1, sent);
    FreshStoreAcked(key, "test-consumer", sent, h);
    pending := store.groups[key].pending;
    FreshStoreDeadLetters(key, "test-consumer", sent, h);
    dead := FieldsOf(Entries(store.State(), DeadLetterStream(key.stream)));
    UnmarshalEncode(sent);
  }
}
