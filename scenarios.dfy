/** Runs of the Service that callers can reason about from its contracts
    alone: the worked batching and subscription cases. */
module Scenarios {
  import opened Entities
  import opened Batching
  import opened Mqtt
  import opened Sta

  /** An observation of Datastream 7 with no id and a phenomenon time only. */
  function Reading(): Observation {
    Observation(None, Some(7), None, Some("2018-01-01T00:00:00Z"), None, None, None, None)
  }

  /** A Service that posts through DataArrays and accepts every observation. */
  method BatchingService() returns (svc: Service)
    ensures fresh(svc) && svc.Valid()
    ensures svc.useDataArrays && !svc.noAct && forall o :: svc.isValid(o)
    ensures svc.davMap == map[] && svc.inserted == 0 && svc.updated == 0 && svc.calls == []
  {
    svc := new Service(true, "", (o: Observation) => true);
  }

  /** Three readings of one stream end up in one batch, in order. */
  method ThreeReadings() returns (svc: Service)
    ensures fresh(svc) && svc.Valid() && svc.useDataArrays && !svc.noAct && svc.inserted == 0
    ensures forall o :: svc.isValid(o)
    ensures svc.davMap == map[Datastream(7) := Batch(Datastream(7), {Result, PhenomenonTime}, [Reading(), Reading(), Reading()])]
  {
    svc := BatchingService();
    var o, key := Reading(), Datastream(7);
    var props := DefinedProperties(o);
    assert StreamOf(o) == Some(key) && props == {Result, PhenomenonTime};
    var s1 := svc.AddObservation(o);
    assert svc.davMap == map[key := Batch(key, props, [o])];
    var s2 := svc.AddObservation(o);
    OneStreamAppend(key, props, [o], o);
    assert [o] + [o] == [o, o];
    assert svc.davMap == map[key := Batch(key, props, [o, o])];
    var s3 := svc.AddObservation(o);
    OneStreamAppend(key, props, [o, o], o);
    assert [o, o] + [o] == [o, o, o];
  }

  /** Batching into the only stream of a one-batch map extends that batch. */
  lemma OneStreamAppend(s: Stream, props: set<Property>, pre: seq<Observation>, o: Observation)
    requires pre != []
    ensures Appended(map[s := Batch(s, props, pre)], s, o) == map[s := Batch(s, props, pre + [o])]
  {
  }

  /** A run of addObservation calls that all take the batching route leaves
      the batch map the fold of one batched add per observation. */
  method AddRun(svc: Service, os: seq<Observation>)
    requires svc.Valid() && svc.useDataArrays && AllStreamed(os)
    requires forall i :: 0 <= i < |os| ==> svc.isValid(os[i]) && (svc.noAct || os[i].id.None?)
    modifies svc`davMap, svc`lastDatastream, svc`lastDav, svc`inserted, svc`updated, svc`calls
    ensures svc.Valid()
    ensures svc.davMap == Accumulate(old(svc.davMap), os)
    ensures svc.calls == old(svc.calls) && svc.inserted == old(svc.inserted) && svc.updated == old(svc.updated)
  {
    for i := 0 to |os|
      invariant svc.Valid()
      invariant Accumulate(svc.davMap, os[i..]) == Accumulate(old(svc.davMap), os)
      invariant svc.calls == old(svc.calls) && svc.inserted == old(svc.inserted) && svc.updated == old(svc.updated)
    {
      assert svc.RouteFor(os[i]) == Batched;
      ghost var m := svc.davMap;
      var _ := svc.AddObservation(os[i]);
      AccumulateFirst(m, os[i..]);
      assert os[i..][1..] == os[i + 1..];
    }
    assert os[|os|..] == [];
  }

  /** N readings of one stream, added to a fresh batching Service, end in
      one batch holding all N in order, shaped by the first. */
  method OneStreamRun(os: seq<Observation>, s: Stream) returns (batches: map<Stream, Batch>)
    requires os != []
    requires forall i :: 0 <= i < |os| ==> StreamOf(os[i]) == Some(s) && os[i].id.None?
    ensures batches == map[s := Batch(s, DefinedProperties(os[0]), os)]
  {
    var svc := BatchingService();
    AddRun(svc, os);
    SingleStreamBatch(os, s);
    batches := svc.davMap;
  }

  /** Flushing those three with one failed item counts two inserts and
      leaves no batch behind. */
  method FlushWithOneError() returns (total: Option<nat>, left: map<Stream, Batch>)
    ensures total == Some(2)
    ensures left == map[]
  {
    var svc := ThreeReadings();
    assert Datastream(7) in svc.davMap;
    ErrorCountExample();
    total := svc.SendDataArray(Some(["loc1", "error: duplicate", "loc3"]));
    left := svc.davMap;
  }

  /** sendDataArray reports the running total, not the flush's own count:
      a second flush of one successful item after the first one reports 3. */
  method TotalNotDelta() returns (second: Option<nat>)
    ensures second == Some(3)
  {
    var svc := ThreeReadings();
    assert Datastream(7) in svc.davMap;
    ErrorCountExample();
    var first := svc.SendDataArray(Some(["loc1", "error: duplicate", "loc3"]));
    var s := svc.AddObservation(Reading());
    assert Datastream(7) in svc.davMap;
    assert ErrorCount(["loc4"]) == 0;
    second := svc.SendDataArray(Some(["loc4"]));
  }

  /** After a flush, the next observation of the same stream starts a fresh
      batch whose component set comes from that observation. */
  method FreshBatchAfterFlush() returns (b: Batch)
    ensures b == Batch(Datastream(7), {Result}, [Reading().(phenomenonTime := None)])
  {
    var svc := ThreeReadings();
    var t := svc.SendDataArray(Some(["loc1", "loc2", "loc3"]));
    var plain := Reading().(phenomenonTime := None);
    assert DefinedProperties(plain) == {Result};
    var s := svc.AddObservation(plain);
    b := svc.davMap[Datastream(7)];
  }

  /** In noAct mode with DataArrays, even an observation with an id is
      batched, and the flush clears it without a call or a count. */
  method NoActBatchesAreNeverCounted() returns (inserted: nat, updated: nat, batched: nat, left: map<Stream, Batch>, ghost calls: seq<ServiceCall>)
    ensures inserted == 0 && updated == 0
    ensures batched == 1
    ensures left == map[] && calls == []
  {
    var svc := BatchingService();
    svc.SetNoAct(true);
    var s := svc.AddObservation(Reading().(id := Some(3)));
    batched := |svc.davMap[Datastream(7)].observations|;
    var t := svc.SendDataArray(Some(["loc1"]));
    inserted, updated := svc.inserted, svc.updated;
    left := svc.davMap;
    calls := svc.calls;
  }

  /** The only enumeration of no topics is the empty one. */
  lemma EmptyEnumeration(order: seq<string>)
    requires Enumerates(order, {})
    ensures order == []
  {
  }

  /** A Service whose client, under the configured id "edge", is connected
      with nothing subscribed yet. */
  method ConnectedService() returns (svc: Service)
    ensures fresh(svc) && IsConnected(svc.client)
    ensures svc.mqttSubscriptions == map[] && svc.wire == [WireConnect("edge")]
  {
    svc := new Service(false, "edge", (o: Observation) => true);
    var connected, order := svc.GetMqttClient("unused");
    if connected {
      EmptyEnumeration(order);
    } else {
      // A failed first connect: reach the connected state through a reconnect.
      order := svc.ConnectComplete();
      EmptyEnumeration(order);
    }
  }

  /** Two listeners on one topic while connected: each is subscribed on the
      wire once, and removing the topic drops both with one unsubscribe. */
  method TwoListenersOneTopic() returns (ghost wire: seq<WireCall>, reg: Registry)
    ensures wire == [WireConnect("edge"), WireSubscribe("t", Listener(1)), WireSubscribe("t", Listener(2)), WireUnsubscribe("t")]
    ensures reg == map[]
  {
    var svc := ConnectedService();
    var ok1 := svc.Subscribe("t", Listener(1));
    var ok2 := svc.Subscribe("t", Listener(2));
    assert svc.mqttSubscriptions.Keys == {"t"};
    var ok3 := svc.RemoveSubscriptions("t");
    wire := svc.wire;
    reg := svc.mqttSubscriptions;
  }

  /** A Service whose connection dropped after two topics were subscribed. */
  method DroppedWithTwoTopics() returns (svc: Service)
    ensures fresh(svc) && svc.client == Client(false)
    ensures svc.mqttSubscriptions == map["a" := [Listener(1)], "b" := [Listener(2)]]
    ensures svc.wire == [WireConnect("edge")]
  {
    svc := ConnectedService();
    svc.ConnectionLost();
    var ok1 := svc.Subscribe("a", Listener(1));
    var ok2 := svc.Subscribe("b", Listener(2));
    assert svc.mqttSubscriptions.Keys == {"a", "b"};
    assert svc.mqttSubscriptions["a"] == [Listener(1)] && svc.mqttSubscriptions["b"] == [Listener(2)];
  }

  /** Subscriptions made while disconnected are replayed on reconnect, one
      wire subscribe per registered pair. */
  method ReplayAfterReconnect() returns (ghost count1: nat, ghost count2: nat)
    ensures count1 == 1 && count2 == 1
  {
    var svc := DroppedWithTwoTopics();
    ghost var before := svc.wire;
    var order := svc.ConnectComplete();
    ghost var replay := svc.wire[|before|..];
    assert replay == SubscribeCalls(svc.mqttSubscriptions, order);
    ResubscribeSendsEachPair(svc.mqttSubscriptions, order, "a", Listener(1));
    ResubscribeSendsEachPair(svc.mqttSubscriptions, order, "b", Listener(2));
    count1 := multiset(replay)[WireSubscribe("a", Listener(1))];
    count2 := multiset(replay)[WireSubscribe("b", Listener(2))];
  }
}
