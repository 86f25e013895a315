/** The processor's Service: it routes observations to the SensorThings
    server (update, create, or a DataArray batch that sendDataArray flushes
    in one bulk create) and keeps the registry of MQTT subscriptions that
    the client replays whenever it (re)connects. The server and the broker
    are seen only through the calls the Service makes, which are logged. */
module Sta {
  import opened Entities
  import opened Batching
  import opened Mqtt

  /** A call the Service makes on the SensorThings server. */
  datatype ServiceCall =
    | Update(obs: Observation)
    | Create(obs: Observation)
    | CreateDataArray(batches: map<Stream, Batch>)

  /** How an operation ended: normally, or with the exception it throws. */
  datatype Status = Ok | ServiceFailure | IllegalArgument

  class Service {
    // Configuration.
    const useDataArrays: bool
    const mqttId: string
    const isValid: Observation -> bool
    var noAct: bool

    // DataArray batching.
    var davMap: map<Stream, Batch>
    var lastDatastream: Option<Stream>
    var lastDav: Option<Batch>
    var inserted: nat
    var updated: nat
    ghost var calls: seq<ServiceCall>

    // MQTT.
    var clientId: string
    var client: ClientState
    var mqttSubscriptions: Registry
    ghost var wire: seq<WireCall>

    /** The one-entry cache: both fields set or both unset, and when set it
        names a stream of the map and holds exactly that stream's batch. */
    ghost predicate CacheCoherent()
      reads this
    {
      && (lastDatastream.Some? <==> lastDav.Some?)
      && (lastDatastream.Some? ==> lastDatastream.value in davMap && lastDav.value == davMap[lastDatastream.value])
    }

    ghost predicate Valid()
      reads this
    {
      WellKeyed(davMap) && CacheCoherent()
    }

    /** The route addObservation takes for `obs` in the current mode. */
    ghost function RouteFor(obs: Observation): Route
      reads this
    {
      RouteOf(isValid(obs), obs.id.Some?, noAct, useDataArrays)
    }

    constructor (useDataArrays: bool, mqttId: string, isValid: Observation -> bool)
      ensures Valid()
      ensures this.useDataArrays == useDataArrays && this.mqttId == mqttId && this.isValid == isValid && !noAct
      ensures davMap == map[] && lastDatastream == None && lastDav == None
      ensures inserted == 0 && updated == 0 && calls == []
      ensures clientId == "" && client == NoClient && mqttSubscriptions == map[] && wire == []
    {
      this.useDataArrays := useDataArrays;
      this.mqttId := mqttId;
      this.isValid := isValid;
      noAct := false;
      davMap := map[];
      lastDatastream, lastDav := None, None;
      inserted, updated := 0, 0;
      calls := [];
      clientId := "";
      client := NoClient;
      mqttSubscriptions := map[];
      wire := [];
    }

    method SetNoAct(noAct: bool)
      modifies this`noAct
      ensures this.noAct == noAct
    {
      this.noAct := noAct;
    }

    /** service.update: the server may fail, which Java reports by throwing. */
    method ServerUpdate(obs: Observation) returns (ok: bool)
      modifies this`calls
      ensures calls == old(calls) + [Update(obs)]
    {
      calls := calls + [Update(obs)];
      ok :| true;
    }

    /** service.create for a single observation; may fail like ServerUpdate. */
    method ServerCreate(obs: Observation) returns (ok: bool)
      modifies this`calls
      ensures calls == old(calls) + [Create(obs)]
    {
      calls := calls + [Create(obs)];
      ok :| true;
    }

    /** Route one observation: drop it when invalid, update it when it has
        an id and the Service acts, create it when DataArrays are off and the
        Service acts, batch it when DataArrays are on, and drop it otherwise.
        Counters move only after a call the server accepted. */
    method AddObservation(obs: Observation) returns (status: Status)
      requires Valid()
      modifies this`davMap, this`lastDatastream, this`lastDav, this`inserted, this`updated, this`calls
      ensures Valid()
      ensures RouteFor(obs) == Rejected || RouteFor(obs) == Dropped ==>
        && status == Ok && calls == old(calls)
        && inserted == old(inserted) && updated == old(updated)
        && davMap == old(davMap) && lastDatastream == old(lastDatastream) && lastDav == old(lastDav)
      ensures RouteFor(obs) == Updated ==>
        && (status == Ok || status == ServiceFailure)
        && calls == old(calls) + [Update(obs)]
        && updated == old(updated) + (if status == Ok then 1 else 0) && inserted == old(inserted)
        && davMap == old(davMap) && lastDatastream == old(lastDatastream) && lastDav == old(lastDav)
      ensures RouteFor(obs) == Created ==>
        && (status == Ok || status == ServiceFailure)
        && calls == old(calls) + [Create(obs)]
        && inserted == old(inserted) + (if status == Ok then 1 else 0) && updated == old(updated)
        && davMap == old(davMap) && lastDatastream == old(lastDatastream) && lastDav == old(lastDav)
      ensures RouteFor(obs) == Batched ==>
        && calls == old(calls) && inserted == old(inserted) && updated == old(updated)
        && (StreamOf(obs).None? ==>
              status == IllegalArgument
              && davMap == old(davMap) && lastDatastream == old(lastDatastream) && lastDav == old(lastDav))
        && (StreamOf(obs).Some? ==>
              status == Ok
              && davMap == Appended(old(davMap), StreamOf(obs).value, obs)
              && lastDatastream == StreamOf(obs))
    {
      if !isValid(obs) {
        return Ok;
      }
      status := Ok;
      if obs.id.Some? && !noAct {
        var ok := ServerUpdate(obs);
        if !ok {
          return ServiceFailure;
        }
        updated := updated + 1;
      } else if !useDataArrays && !noAct {
        var ok := ServerCreate(obs);
        if !ok {
          return ServiceFailure;
        }
        inserted := inserted + 1;
      } else if useDataArrays {
        status := AddToDataArray(obs);
      }
    }

    /** Append a valid observation to its stream's batch, through the cache.
        An observation without a (Multi)Datastream is refused and changes
        nothing. */
    method AddToDataArray(obs: Observation) returns (status: Status)
      requires Valid()
      modifies this`davMap, this`lastDatastream, this`lastDav
      ensures Valid()
      ensures !isValid(obs) ==>
        status == Ok && davMap == old(davMap) && lastDatastream == old(lastDatastream) && lastDav == old(lastDav)
      ensures isValid(obs) && StreamOf(obs).None? ==>
        status == IllegalArgument && davMap == old(davMap) && lastDatastream == old(lastDatastream) && lastDav == old(lastDav)
      ensures isValid(obs) && StreamOf(obs).Some? ==>
        var s := StreamOf(obs).value;
        && status == Ok
        && davMap == Appended(old(davMap), s, obs)
        && lastDatastream == Some(s) && lastDav == Some(davMap[s])
    {
      if !isValid(obs) {
        return Ok;
      }
      var ds: Option<Stream> := if obs.datastream.Some? then Some(Datastream(obs.datastream.value)) else None;
      if ds.None? {
        ds := if obs.multiDatastream.Some? then Some(MultiDatastream(obs.multiDatastream.value)) else None;
      }
      if ds.None? {
        return IllegalArgument;
      }
      ghost var m := davMap;
      if ds != lastDatastream {
        FindDataArrayValue(ds.value, obs);
      }
      AppendedViaEmpty(m, ds.value, obs);
      // lastDav.addObservation(obs): the cached batch is the very one held
      // in the map, so the append shows through both.
      var s, b := lastDatastream.value, lastDav.value;
      b := b.(observations := b.observations + [obs]);
      lastDav := Some(b);
      davMap := davMap[s := b];
      status := Ok;
    }

    /** Point the cache at the batch of `ds`, creating an empty batch shaped
        by `o` when the stream has none. */
    method FindDataArrayValue(ds: Stream, o: Observation)
      requires Valid()
      modifies this`davMap, this`lastDatastream, this`lastDav
      ensures CacheCoherent() && lastDatastream == Some(ds)
      ensures davMap == if ds in old(davMap) then old(davMap) else old(davMap)[ds := Batch(ds, DefinedProperties(o), [])]
    {
      var dav: Option<Batch> := if ds in davMap then Some(davMap[ds]) else None;
      if dav.None? {
        // Both kinds of stream get a DataArray keyed by themselves.
        dav := Some(Batch(ds, DefinedProperties(o), []));
        davMap := davMap[ds := dav.value];
      }
      lastDav := dav;
      lastDatastream := Some(ds);
    }

    /** Flush every batch in one bulk create. `response` is the server's
        answer: the result list, or None when the call itself throws. The
        non-error results are added to `inserted`; the map and the cache are
        cleared unless the call threw. The result is the running total. */
    method SendDataArray(response: Option<seq<string>>) returns (total: Option<nat>)
      requires Valid()
      modifies this`davMap, this`lastDatastream, this`lastDav, this`inserted, this`calls
      ensures Valid()
      ensures noAct || old(davMap) == map[] ==> calls == old(calls) && inserted == old(inserted)
      ensures !noAct && old(davMap) != map[] ==> calls == old(calls) + [CreateDataArray(old(davMap))]
      ensures !noAct && old(davMap) != map[] && response.Some? ==>
        inserted == old(inserted) + |response.value| - ErrorCount(response.value)
      ensures total.None? <==> !noAct && old(davMap) != map[] && response.None?
      ensures total.None? ==>
        inserted == old(inserted) && davMap == old(davMap) && lastDatastream == old(lastDatastream) && lastDav == old(lastDav)
      ensures total.Some? ==>
        total.value == inserted && davMap == map[] && lastDatastream == None && lastDav == None
    {
      if !noAct && davMap != map[] {
        calls := calls + [CreateDataArray(davMap)];
        if response.None? {
          return None;
        }
        var locations := response.value;
        var error := ErrorCount(locations);
        var nonError := |locations| - error;
        inserted := inserted + nonError;
      }
      davMap := map[];
      lastDav := None;
      lastDatastream := None;
      total := Some(inserted);
    }

    /** getClientId: choose the id once and keep it. */
    method GetClientId(generated: string) returns (id: string)
      modifies this`clientId
      ensures clientId == ChooseClientId(old(clientId), mqttId, generated) && id == clientId
    {
      if clientId == "" {
        clientId := mqttId;
        if clientId == "" {
          clientId := ClientIdPrefix + generated;
        }
      }
      id := clientId;
    }

    /** client.subscribe; the broker may refuse, which throws. */
    method ClientSubscribe(topic: string, l: Listener) returns (ok: bool)
      modifies this`wire
      ensures wire == old(wire) + [WireSubscribe(topic, l)]
    {
      wire := wire + [WireSubscribe(topic, l)];
      ok :| true;
    }

    /** client.unsubscribe; may throw like ClientSubscribe. */
    method ClientUnsubscribe(topic: string) returns (ok: bool)
      modifies this`wire
      ensures wire == old(wire) + [WireUnsubscribe(topic)]
    {
      wire := wire + [WireUnsubscribe(topic)];
      ok :| true;
    }

    /** getSubscriptionListForTopic: the topic's list, created empty when absent. */
    method SubscriptionListForTopic(topic: string) returns (listeners: seq<Listener>)
      modifies this`mqttSubscriptions
      ensures listeners == ListenersOf(old(mqttSubscriptions), topic)
      ensures mqttSubscriptions == old(mqttSubscriptions)[topic := listeners]
    {
      if topic in mqttSubscriptions {
        listeners := mqttSubscriptions[topic];
      } else {
        listeners := [];
      }
      mqttSubscriptions := mqttSubscriptions[topic := listeners];
    }

    /** Register the listener, then subscribe on the wire if connected. A
        refused wire call is reported but the registration stays. */
    method Subscribe(topic: string, l: Listener) returns (ok: bool)
      modifies this`mqttSubscriptions, this`wire
      ensures mqttSubscriptions == Subscribed(old(mqttSubscriptions), topic, l)
      ensures IsConnected(client) ==> wire == old(wire) + [WireSubscribe(topic, l)]
      ensures !IsConnected(client) ==> wire == old(wire) && ok
    {
      var listeners := SubscriptionListForTopic(topic);
      mqttSubscriptions := mqttSubscriptions[topic := listeners + [l]];
      if !IsConnected(client) {
        return true;
      }
      ok := ClientSubscribe(topic, l);
    }

    /** Drop the topic's whole entry, then unsubscribe on the wire if connected. */
    method RemoveSubscriptions(topic: string) returns (ok: bool)
      modifies this`mqttSubscriptions, this`wire
      ensures mqttSubscriptions == Removed(old(mqttSubscriptions), topic)
      ensures IsConnected(client) ==> wire == old(wire) + [WireUnsubscribe(topic)]
      ensures !IsConnected(client) ==> wire == old(wire) && ok
    {
      mqttSubscriptions := mqttSubscriptions - {topic};
      if !IsConnected(client) {
        return true;
      }
      ok := ClientUnsubscribe(topic);
    }

    /** Remove every topic, in the order of a snapshot of the keys; a refused
        wire unsubscribe is skipped. The registry ends empty either way. */
    method UnsubscribeAll() returns (ghost order: seq<string>)
      modifies this`mqttSubscriptions, this`wire
      ensures Enumerates(order, old(mqttSubscriptions).Keys)
      ensures mqttSubscriptions == map[]
      ensures wire == old(wire) + if IsConnected(client) then UnsubscribeCalls(order) else []
    {
      var reg := mqttSubscriptions;
      var topics := TopicsOf(reg);
      order := topics;
      RemoveEach(topics);
      RemovedAllEmpties(reg, topics);
    }

    /** The loop of unsubscribeAll: remove each topic of `topics` in turn. */
    method RemoveEach(topics: seq<string>)
      modifies this`mqttSubscriptions, this`wire
      ensures mqttSubscriptions == RemovedAll(old(mqttSubscriptions), topics)
      ensures wire == old(wire) + if IsConnected(client) then UnsubscribeCalls(topics) else []
    {
      ghost var reg := mqttSubscriptions;
      for i := 0 to |topics|
        invariant mqttSubscriptions == RemovedAll(reg, topics[..i])
        invariant wire == old(wire) + if IsConnected(client) then UnsubscribeCalls(topics[..i]) else []
      {
        var _ := RemoveSubscriptions(topics[i]);
        RemovedAllStep(reg, topics, i);
        UnsubscribeCallsStep(topics, i);
      }
      assert topics[..|topics|] == topics;
    }

    /** The reconnect replay: subscribe every registered listener again,
        topic by topic in key-set order and listener by listener in list
        order, skipping refused calls. The registry is only read. */
    method ResubscribeAll() returns (ghost order: seq<string>)
      requires client.Client?
      modifies this`wire
      ensures Enumerates(order, mqttSubscriptions.Keys)
      ensures wire == old(wire) + SubscribeCalls(mqttSubscriptions, order)
    {
      var topics := TopicsOf(mqttSubscriptions);
      order := topics;
      SubscribeEach(mqttSubscriptions, topics);
    }

    /** The outer loop of the replay: visit each topic of `topics` in turn. */
    method SubscribeEach(reg: Registry, topics: seq<string>)
      requires InRegistry(reg, topics)
      modifies this`wire
      ensures wire == old(wire) + SubscribeCalls(reg, topics)
    {
      for i := 0 to |topics|
        invariant wire == old(wire) + SubscribeCalls(reg, topics[..i])
      {
        SubscribeListeners(topics[i], reg[topics[i]]);
        SubscribeCallsStep(reg, topics, i);
      }
      assert topics[..|topics|] == topics;
    }

    /** The inner loop of the replay: subscribe each listener of one topic in
        list order, skipping refused calls. */
    method SubscribeListeners(topic: string, listeners: seq<Listener>)
      modifies this`wire
      ensures wire == old(wire) + ListenerCalls(topic, listeners)
    {
      for j := 0 to |listeners|
        invariant wire == old(wire) + ListenerCalls(topic, listeners[..j])
      {
        var _ := ClientSubscribe(topic, listeners[j]);
        assert listeners[..j + 1][..j] == listeners[..j];
      }
      assert listeners[..|listeners|] == listeners;
    }

    /** getMqttClient: on first use, create the client under the chosen id
        and connect; a successful connect fires connectComplete, which
        replays the registry. A failed connect leaves the client in place,
        unconnected. Later calls return the existing client untouched. */
    method GetMqttClient(generated: string) returns (connectOk: bool, ghost order: seq<string>)
      modifies this`clientId, this`client, this`wire
      ensures old(client).Client? ==>
        connectOk && client == old(client) && clientId == old(clientId) && wire == old(wire)
      ensures old(client).NoClient? ==>
        && clientId == ChooseClientId(old(clientId), mqttId, generated)
        && client == Client(connectOk)
        && (connectOk ==> Enumerates(order, mqttSubscriptions.Keys))
        && wire == old(wire) + [WireConnect(clientId)] + if connectOk then SubscribeCalls(mqttSubscriptions, order) else []
    {
      connectOk, order := true, [];
      if client.NoClient? {
        var id := GetClientId(generated);
        client := Client(false);
        wire := wire + [WireConnect(id)];
        connectOk :| true;
        if connectOk {
          client := Client(true);
          order := ResubscribeAll();
        }
      }
    }

    /** The transport lost the connection; the callback only logs. */
    method ConnectionLost()
      requires client.Client?
      modifies this`client
      ensures client == Client(false)
    {
      client := Client(false);
    }

    /** The transport reconnected on its own and fired connectComplete,
        which replays the registry. */
    method ConnectComplete() returns (ghost order: seq<string>)
      requires client.Client?
      modifies this`client, this`wire
      ensures client == Client(true)
      ensures Enumerates(order, mqttSubscriptions.Keys)
      ensures wire == old(wire) + SubscribeCalls(mqttSubscriptions, order)
    {
      client := Client(true);
      order := ResubscribeAll();
    }

    /** client.disconnect; may throw. */
    method ClientDisconnect() returns (ok: bool)
      modifies this`wire
      ensures wire == old(wire) + [WireDisconnect]
    {
      wire := wire + [WireDisconnect];
      ok :| true;
    }

    /** Unsubscribe everything, then drop the client, disconnecting it first
        when connected. A disconnect that throws leaves the client in place. */
    method CloseMqttClient() returns (ok: bool, ghost order: seq<string>)
      modifies this`mqttSubscriptions, this`client, this`wire
      ensures mqttSubscriptions == map[]
      ensures Enumerates(order, old(mqttSubscriptions).Keys)
      ensures !IsConnected(old(client)) ==> ok && client == NoClient && wire == old(wire)
      ensures IsConnected(old(client)) ==>
        && wire == old(wire) + UnsubscribeCalls(order) + [WireDisconnect]
        && client == if ok then NoClient else old(client)
    {
      order := UnsubscribeAll();
      ok := true;
      if client.NoClient? {
        return;
      }
      if client.connected {
        ok := ClientDisconnect();
        if !ok {
          return;
        }
      }
      client := NoClient;
    }
  }
}
