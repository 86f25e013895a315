# SensorThings processor Service — a Dafny model

This project models the `Service` class of the SensorThings processor. The
class is the processor's single gateway to a SensorThings server and to its
MQTT broker. It does three pieces of sequential bookkeeping, and the model
covers each one.

- **Observation routing and DataArray batching.** `addObservation` sends an
  observation down one of five routes:
  - nothing happens when the validator refuses it;
  - it is updated when it has an id and the Service acts;
  - it is created singly when DataArrays are off and the Service acts;
  - it is appended to the DataArray batch of its (Multi)Datastream when
    DataArrays are on;
  - it is dropped in `noAct` mode without DataArrays.

  Batches live in a map from stream to batch. The pair (`lastDatastream`,
  `lastDav`) is a one-entry cache over that map. `sendDataArray` sends every
  batch in one bulk create, counts the results that are not tagged `error`
  into `inserted`, clears the map and the cache, and returns the running
  total.
- **The MQTT subscription registry.** This is a map from topic to listener
  list.
  - `subscribe` and `removeSubscriptions` update the map, and issue a wire
    call only when a client exists and is connected.
  - `unsubscribeAll` empties the registry over a snapshot of its topics.
  - `resubscribeAll` replays every (topic, listener) pair on (re)connect.
  - `closeMqttClient` unsubscribes everything and drops the client.
- **Client id derivation.** `getClientId` makes a memoised choice between the
  memoised id, the configured id and `"processor-"` followed by a generated
  value.

The model is split into five files:
- `entities.dfy` (module `Entities`): the observation, stream, property and
  batch values, and the component set of a new batch.
- `batching.dfy` (module `Batching`): the routing decision, the batch map as
  a value with the effect of one add and of a run of adds, and the error
  count of a bulk create.
- `mqtt.dfy` (module `Mqtt`): the registry as a value, the sequences of wire
  calls the bulk operations issue, how often each pair is sent, and the
  client id choice.
- `service.dfy` (module `Sta`): the class `Service`. Its fields are the
  source's fields, and its methods update them in place.
- `scenarios.dfy` (module `Scenarios`): concrete runs stated through the
  contracts alone.

Modelling conventions:
- **Collaborators.** The SensorThings server and the MQTT client are seen
  only through the calls the Service makes on them. Those calls are
  recorded in two ghost logs, `calls` and `wire`.
- **Failure.** Each remote call may fail, and the model leaves that choice
  open. The bulk create's answer is a parameter of `SendDataArray`:
  `None` stands for the exception the call throws, `Some(locations)` for its
  result list.
- **Streams.** A stream is a value, `Datastream(id)` or
  `MultiDatastream(id)`. So the cache test, which compares by reference at
  `Service.java:297`, and the map lookup, which uses `equals` at
  `Service.java:304`, agree. This assumes that one stream is always handed
  over as the same Java object.
- **Batches.** A batch is a value. The cached batch and the map entry are
  one object in Java, so `AddToDataArray` writes the extended batch into
  both places. The class invariant `CacheCoherent` states that they agree.

Three behaviours of the code are easy to miss; the model keeps them as
written:
- `sendDataArray` returns the running total `inserted`, not the number
  inserted by this flush (`Service.java:335`).
- In `noAct` mode, batches are cleared without any call and without being
  counted (`Service.java:318`, `Service.java:332`).
- Two exception paths leave state in place:
  - When `client.disconnect()` throws, `closeMqttClient` propagates the
    exception before `client = null`, so the client stays
    (`Service.java:200-206`).
  - When the bulk create throws, `sendDataArray` returns before the map and
    the cache are cleared (`Service.java:321`).

## Model

| member | source | states |
|---|---|---|
| Entities.StreamOf | src/main/java/de/fraunhofer/iosb/ilt/stp/sta/Service.java:290-293 | the stream is the Datastream when the observation has one, else the MultiDatastream, else none; the id is the linked entity's |
| Entities.DefinedProperties | src/main/java/de/fraunhofer/iosb/ilt/stp/sta/Service.java:338-357 | Result is always present; each of PhenomenonTime, ResultTime, ResultQuality, Parameters, ValidTime is present iff that field is non-null |
| Entities.DefinedPropertiesDeterminesShape | src/main/java/de/fraunhofer/iosb/ilt/stp/sta/Service.java:338-357 | two observations get the same component set iff the same optional fields are non-null |
| Batching.WellKeyed | src/main/java/de/fraunhofer/iosb/ilt/stp/sta/Service.java:303-315 | the batch-map invariant: every batch is keyed by its own stream and holds at least the observation that created it |
| Batching.RouteOf | src/main/java/de/fraunhofer/iosb/ilt/stp/sta/Service.java:271-284 | each route in closed form: rejected iff invalid; updated iff valid, has an id and acts; created iff valid, no id, acts and no DataArrays; batched iff valid, DataArrays on and (noAct or no id); dropped iff valid, noAct and no DataArrays |
| Batching.Appended | src/main/java/de/fraunhofer/iosb/ilt/stp/sta/Service.java:297-315 | one batched add keeps the map well keyed, adds only the stream's key, puts the observation last in that stream's batch, keeps a known stream's component set or takes it from the observation for a new stream, and leaves every other batch unchanged |
| Batching.AppendedViaEmpty | src/main/java/de/fraunhofer/iosb/ilt/stp/sta/Service.java:300-311 | creating an empty batch for a new stream and then appending through the cache equals one batched add |
| Batching.Accumulate | src/main/java/de/fraunhofer/iosb/ilt/stp/sta/Service.java:286-315 | a run of batched adds keeps every batch keyed by its own stream and non-empty, and never loses a stream |
| Batching.OneStreamRunPerStream | src/main/java/de/fraunhofer/iosb/ilt/stp/sta/Service.java:297-315 | a run of one stream's observations extends that stream's batch by exactly the run, in order, and leaves every other stream's batch as it was |
| Batching.BatchOfAppended | src/main/java/de/fraunhofer/iosb/ilt/stp/sta/Service.java:297-315 | one add extends the batch of its own stream by that observation and no other stream's batch |
| Batching.AccumulatePerStream | src/main/java/de/fraunhofer/iosb/ilt/stp/sta/Service.java:286-315 | after a run of adds, each stream's batch is its old observations followed by exactly the new observations of that stream, in arrival order |
| Batching.AccumulateHasBatch | src/main/java/de/fraunhofer/iosb/ilt/stp/sta/Service.java:303-311 | after a run of adds a stream has a batch iff it had one or a new observation names it (at most one batch per stream) |
| Batching.AccumulateKeepsProperties | src/main/java/de/fraunhofer/iosb/ilt/stp/sta/Service.java:303-311 | a batch's component set is fixed: a known stream keeps its set, a new stream gets the set of its first observation, never recomputed |
| Batching.SingleStreamBatch | src/main/java/de/fraunhofer/iosb/ilt/stp/sta/Service.java:297-315 | N observations of one stream batched from an empty map give exactly one batch holding all N in order, shaped by the first |
| Batching.OneStreamGrows | src/main/java/de/fraunhofer/iosb/ilt/stp/sta/Service.java:297-300 | more observations of the only stream in the map extend its batch and keep its component set |
| Batching.ErrorCount | src/main/java/de/fraunhofer/iosb/ilt/stp/sta/Service.java:322-324 | the number of results starting with "error" is at most the number of results, zero iff none is an error, and all iff all are |
| Batching.ErrorCountAppend | src/main/java/de/fraunhofer/iosb/ilt/stp/sta/Service.java:322-324 | error counts of consecutive parts of a result list add up |
| Batching.ErrorCountExample | src/main/java/de/fraunhofer/iosb/ilt/stp/sta/Service.java:322-330 | three results with one error count two non-error results |
| Mqtt.IsConnected | src/main/java/de/fraunhofer/iosb/ilt/stp/sta/Service.java:245-253 | a wire call is made only when the client exists and is connected: the negation of the source's test that the client is null or not connected |
| Mqtt.ListenersOf | src/main/java/de/fraunhofer/iosb/ilt/stp/sta/Service.java:235-236 | a topic without an entry has the empty listener list |
| Mqtt.Subscribed | src/main/java/de/fraunhofer/iosb/ilt/stp/sta/Service.java:234-252 | subscribe adds the topic's key, puts the listener at the end of the topic's list (created when absent) and leaves every other topic's list unchanged |
| Mqtt.Removed | src/main/java/de/fraunhofer/iosb/ilt/stp/sta/Service.java:243-244 | removeSubscriptions drops the topic's whole entry and keeps exactly the other topics, with their lists |
| Mqtt.RemoveUndoesSubscribe | src/main/java/de/fraunhofer/iosb/ilt/stp/sta/Service.java:243-252 | removing a topic undoes any subscription made to it |
| Mqtt.SubscribeTwiceKeepsBoth | src/main/java/de/fraunhofer/iosb/ilt/stp/sta/Service.java:251-252 | two subscriptions to one topic keep both listeners in call order |
| Mqtt.TopicsOf | src/main/java/de/fraunhofer/iosb/ilt/stp/sta/Service.java:224 | the key snapshot lists every topic of the registry exactly once, in some order |
| Mqtt.ListenerCalls | src/main/java/de/fraunhofer/iosb/ilt/stp/sta/Service.java:213-219 | the inner replay loop issues one wire call per listener |
| Mqtt.SubscribeCalls | src/main/java/de/fraunhofer/iosb/ilt/stp/sta/Service.java:209-221 | the wire calls of a replay that visits the topics in the given order: each topic's listener calls, topic after topic; the reference the replay methods are proved against |
| Mqtt.SubscribeCallsStep | src/main/java/de/fraunhofer/iosb/ilt/stp/sta/Service.java:210-220 | visiting one more topic appends exactly that topic's listener calls |
| Mqtt.UnsubscribeCalls | src/main/java/de/fraunhofer/iosb/ilt/stp/sta/Service.java:225-231 | unsubscribing a list of topics issues one wire call per topic |
| Mqtt.UnsubscribeCallsStep | src/main/java/de/fraunhofer/iosb/ilt/stp/sta/Service.java:225-231 | visiting one more topic appends exactly its unsubscribe call |
| Mqtt.RemovedAll | src/main/java/de/fraunhofer/iosb/ilt/stp/sta/Service.java:223-232 | the registry after removing each topic of the snapshot in turn; the reference the unsubscribe loop is proved against |
| Mqtt.RemovedAllKeeps | src/main/java/de/fraunhofer/iosb/ilt/stp/sta/Service.java:223-232 | removing a run of topics leaves exactly the entries of the other topics, with their lists untouched |
| Mqtt.RemovedAllStep | src/main/java/de/fraunhofer/iosb/ilt/stp/sta/Service.java:225-227 | removing one more topic of the snapshot removes its entry from what is left |
| Mqtt.RemovedAllEmpties | src/main/java/de/fraunhofer/iosb/ilt/stp/sta/Service.java:223-232 | removing every topic of a snapshot of the keys leaves the registry empty |
| Mqtt.ListenerCallsCount | src/main/java/de/fraunhofer/iosb/ilt/stp/sta/Service.java:213-219 | the inner loop sends each listener of the topic as often as it is in the list, and nothing for another topic |
| Mqtt.SubscribeCallsCount | src/main/java/de/fraunhofer/iosb/ilt/stp/sta/Service.java:209-221 | over distinct visited topics, a pair is sent once per registration if its topic is visited and never otherwise |
| Mqtt.ResubscribeSendsEachPair | src/main/java/de/fraunhofer/iosb/ilt/stp/sta/Service.java:209-221 | a full replay sends every registered (topic, listener) pair exactly as often as it is registered |
| Mqtt.ListenerCallsFrom | src/main/java/de/fraunhofer/iosb/ilt/stp/sta/Service.java:213-215 | the k-th call of the inner loop subscribes the topic with the k-th listener |
| Mqtt.SubscribeCallsOnlyRegistered | src/main/java/de/fraunhofer/iosb/ilt/stp/sta/Service.java:209-221 | every call of a replay subscribes a visited topic with one of its registered listeners |
| Mqtt.UnsubscribeCallsOnce | src/main/java/de/fraunhofer/iosb/ilt/stp/sta/Service.java:223-232 | over distinct topics, each topic is unsubscribed exactly once and nothing else is sent |
| Mqtt.ChooseClientId | src/main/java/de/fraunhofer/iosb/ilt/stp/sta/Service.java:150-158 | the id is never empty; a memoised id wins, then a non-empty configured id, else "processor-" followed by the generated value |
| Mqtt.ClientIdStable | src/main/java/de/fraunhofer/iosb/ilt/stp/sta/Service.java:150-158 | once chosen, the id survives every later call whatever value is generated then |
| Sta.Service.CacheCoherent | src/main/java/de/fraunhofer/iosb/ilt/stp/sta/Service.java:297-315 | the cache invariant: lastDatastream and lastDav are both set or both unset, and when set the stream is a key of the batch map and lastDav is exactly that key's batch |
| Sta.Service.Valid | src/main/java/de/fraunhofer/iosb/ilt/stp/sta/Service.java:297-334 | the class invariant the batching methods AddObservation, AddToDataArray and SendDataArray keep and the constructor establishes: the batch map is well keyed and the cache is coherent, including after the flush clears both (332-334); the private helper FindDataArrayValue keeps only the cache part, because it stores an empty batch that AddToDataArray fills at once |
| Sta.Service.constructor | src/main/java/de/fraunhofer/iosb/ilt/stp/sta/Service.java:111-124 | a new Service acts, has no batches, no cache, zero counters, no client id, no client and no subscriptions |
| Sta.Service.SetNoAct | src/main/java/de/fraunhofer/iosb/ilt/stp/sta/Service.java:259-261 | sets the noAct flag |
| Sta.Service.ServerUpdate | src/main/java/de/fraunhofer/iosb/ilt/stp/sta/Service.java:276 | one update call is made on the server |
| Sta.Service.ServerCreate | src/main/java/de/fraunhofer/iosb/ilt/stp/sta/Service.java:279 | one create call is made on the server |
| Sta.Service.AddObservation | src/main/java/de/fraunhofer/iosb/ilt/stp/sta/Service.java:271-284 | per route: rejected and dropped change nothing; updated makes one update call and counts it only if the server accepted; created likewise with inserted; batched makes no call, moves no counter and appends to the stream's batch, or refuses a stream-less observation; the cache invariant is kept |
| Sta.Service.AddToDataArray | src/main/java/de/fraunhofer/iosb/ilt/stp/sta/Service.java:286-301 | an invalid observation changes nothing; one without a stream is refused with IllegalArgument and changes nothing; otherwise the map becomes the batched add under the Datastream (preferred) or MultiDatastream, and the cache points at that stream and its batch |
| Sta.Service.FindDataArrayValue | src/main/java/de/fraunhofer/iosb/ilt/stp/sta/Service.java:303-315 | the cache points at the stream's batch, which is created empty with the observation's component set when absent; the map is otherwise unchanged |
| Sta.Service.SendDataArray | src/main/java/de/fraunhofer/iosb/ilt/stp/sta/Service.java:317-336 | exactly one bulk create of all batches when acting on a non-empty map, none otherwise; inserted grows by the non-error results; a failed bulk call changes nothing else; otherwise map and cache end empty and the result is the running total |
| Sta.Service.GetClientId | src/main/java/de/fraunhofer/iosb/ilt/stp/sta/Service.java:150-158 | the returned and memoised id is the client id choice |
| Sta.Service.ClientSubscribe | src/main/java/de/fraunhofer/iosb/ilt/stp/sta/Service.java:256 | one wire subscribe is sent |
| Sta.Service.ClientUnsubscribe | src/main/java/de/fraunhofer/iosb/ilt/stp/sta/Service.java:248 | one wire unsubscribe is sent |
| Sta.Service.SubscriptionListForTopic | src/main/java/de/fraunhofer/iosb/ilt/stp/sta/Service.java:234-241 | returns the topic's list, the empty one when absent, which is then registered |
| Sta.Service.Subscribe | src/main/java/de/fraunhofer/iosb/ilt/stp/sta/Service.java:251-257 | the registry becomes the subscribed one whatever the connection; one wire subscribe iff connected |
| Sta.Service.RemoveSubscriptions | src/main/java/de/fraunhofer/iosb/ilt/stp/sta/Service.java:243-249 | the topic's entry is removed first; one wire unsubscribe iff connected |
| Sta.Service.UnsubscribeAll | src/main/java/de/fraunhofer/iosb/ilt/stp/sta/Service.java:223-232 | the registry ends empty even when wire calls fail, and each snapshot topic is unsubscribed once iff connected |
| Sta.Service.RemoveEach | src/main/java/de/fraunhofer/iosb/ilt/stp/sta/Service.java:225-231 | removing the topics in turn leaves the other entries and sends one unsubscribe per topic iff connected |
| Sta.Service.ResubscribeAll | src/main/java/de/fraunhofer/iosb/ilt/stp/sta/Service.java:209-221 | the registry is only read, and the wire gets exactly the replay calls over a snapshot of its topics, past failures |
| Sta.Service.SubscribeEach | src/main/java/de/fraunhofer/iosb/ilt/stp/sta/Service.java:210-220 | the outer replay loop sends the listener calls of each topic in turn |
| Sta.Service.SubscribeListeners | src/main/java/de/fraunhofer/iosb/ilt/stp/sta/Service.java:213-219 | the inner replay loop sends one subscribe per listener in list order, past failures |
| Sta.Service.GetMqttClient | src/main/java/de/fraunhofer/iosb/ilt/stp/sta/Service.java:160-192 | an existing client is returned untouched; otherwise the id is chosen, one connect is sent, the client exists connected or not, and a successful connect replays the registry |
| Sta.Service.ConnectionLost | src/main/java/de/fraunhofer/iosb/ilt/stp/sta/Service.java:172-174 | the client stays but is no longer connected |
| Sta.Service.ConnectComplete | src/main/java/de/fraunhofer/iosb/ilt/stp/sta/Service.java:185-187 | a reconnect replays the whole registry |
| Sta.Service.ClientDisconnect | src/main/java/de/fraunhofer/iosb/ilt/stp/sta/Service.java:202 | one wire disconnect is sent |
| Sta.Service.CloseMqttClient | src/main/java/de/fraunhofer/iosb/ilt/stp/sta/Service.java:194-207 | the registry ends empty; an absent or unconnected client is dropped without a wire call; a connected one gets one unsubscribe per topic then a disconnect, and is dropped unless the disconnect failed |
| Scenarios.BatchingService | src/main/java/de/fraunhofer/iosb/ilt/stp/sta/Service.java:111-124 | a new DataArray Service that acts starts with no batches and zero counters |
| Scenarios.ThreeReadings | src/main/java/de/fraunhofer/iosb/ilt/stp/sta/Service.java:286-315 | three readings of one stream end in one batch, in order, with the first reading's component set |
| Scenarios.AddRun | src/main/java/de/fraunhofer/iosb/ilt/stp/sta/Service.java:271-315 | a run of addObservation calls that all take the batching route makes no server call, moves no counter, keeps the class invariant and leaves the batch map equal to the fold of one batched add per observation |
| Scenarios.OneStreamRun | src/main/java/de/fraunhofer/iosb/ilt/stp/sta/Service.java:271-315 | N readings of one stream added to a fresh batching Service end in exactly one batch holding all N in order, shaped by the first |
| Scenarios.OneStreamAppend | src/main/java/de/fraunhofer/iosb/ilt/stp/sta/Service.java:300 | appending to the only batch of a map extends it |
| Scenarios.FlushWithOneError | src/main/java/de/fraunhofer/iosb/ilt/stp/sta/Service.java:317-336 | flushing three results with one error reports two inserted and leaves no batch |
| Scenarios.TotalNotDelta | src/main/java/de/fraunhofer/iosb/ilt/stp/sta/Service.java:329-335 | a second flush of one success after two reports the running total 3 |
| Scenarios.FreshBatchAfterFlush | src/main/java/de/fraunhofer/iosb/ilt/stp/sta/Service.java:303-311 | after a flush, the next reading of the same stream starts a fresh batch shaped by that reading |
| Scenarios.NoActBatchesAreNeverCounted | src/main/java/de/fraunhofer/iosb/ilt/stp/sta/Service.java:318-332 | in noAct mode with DataArrays an observation with an id is batched, and the flush empties the map without any server call and without updating or inserting |
| Scenarios.EmptyEnumeration | src/main/java/de/fraunhofer/iosb/ilt/stp/sta/Service.java:224 | the snapshot of an empty registry is empty |
| Scenarios.ConnectedService | src/main/java/de/fraunhofer/iosb/ilt/stp/sta/Service.java:160-192 | a first connect under a configured id sends that id and replays nothing |
| Scenarios.TwoListenersOneTopic | src/main/java/de/fraunhofer/iosb/ilt/stp/sta/Service.java:243-257 | two listeners on one topic are subscribed on the wire once each, and one remove drops both with a single unsubscribe |
| Scenarios.DroppedWithTwoTopics | src/main/java/de/fraunhofer/iosb/ilt/stp/sta/Service.java:251-257 | subscriptions made while disconnected are registered, and the wire still holds only the first connect |
| Scenarios.ReplayAfterReconnect | src/main/java/de/fraunhofer/iosb/ilt/stp/sta/Service.java:185-221 | after a reconnect each pair registered while disconnected is sent exactly once |

## Left out

- `configure` (URL parsing, the authentication plug-in, the default validator) is configuration over libraries not in this model; the validator is the opaque function `isValid` fixed at construction.
- The MQTT library: client construction, connect options, the callback object and the broker itself. The model keeps only the client state (absent, connected, not connected), a log of wire calls and a free success flag per call.
- `synchronized` locking, and `resubscribeAll` running on the transport's callback thread: every operation is modelled as atomic and sequential.
- Sta.Service.ConnectComplete: requires a present client, so a late reconnect of a dropped client is not modelled. `closeMqttClient` drops an unconnected client without disconnecting it (`Service.java:200-206`); that client was built with automatic reconnect (`Service.java:166`), so it may still fire `connectComplete` (`Service.java:185-187`), and `resubscribeAll` would then use the field `client` (`Service.java:215`), which is null or a newer client by then.
- Scenarios.ConnectedService: when the first connect fails, it reaches the connected state through ConnectComplete. The model lets an existing unconnected client reconnect on its own. The source shows connectComplete only as the callback of a client built with automatic reconnect (`Service.java:166`, `Service.java:185-187`). Whether the library fires it after a first `client.connect` that threw (`Service.java:189`) is not part of this model.
- Sta.Service.ResubscribeAll: requires a present client for the same reason; in the source it dereferences `client` without a check.
- `getAllThings` is a paged remote query and is not part of this model.
- `DataArrayValue`, `DataArrayDocument`, JSON serialisation, and what `service.create` and `service.update` do remotely: the calls are logged and their outcomes are inputs or free choices.
- Logging, including the warning with the first error in `sendDataArray`.
- `UUID.randomUUID()`: the generated value is a parameter of `GetClientId` and `GetMqttClient`.
- A `ProcessException` thrown by the validator (`Service.java:272`, `Service.java:287`), which aborts `addObservation` before any state change, is not modelled: `isValid` is a total predicate.
- `getInserted` and `getUpdated` are plain field reads; the fields are public in the model.
- Sta.Service.AddObservation: `updated` and `inserted` are unbounded naturals, so the 32-bit wrap-around of Java's `int` counters after 2^31 - 1 operations is not modelled.
- Sta.Service.SendDataArray: `inserted += nonError` narrows a `long` into an `int` in Java; the model adds unbounded naturals.
- Null and the empty string are both the empty string for `clientId` and `mqttId`. The configured `mqttId` is a constructor argument; its shipped default (`Service.java:85`) is the service URL, not the empty string, so the `"processor-"` branch (`Service.java:153-154`) is reached only when the configuration clears the field, although the field's description (`Service.java:84`) says to leave it empty for a random id. The default itself is not modelled.
- Aliasing of the cached `DataArrayValue` with the map entry is captured by writing the extended batch to both places, not by references.
- Sta.Service.GetMqttClient: a connect that throws is modelled as leaving an unconnected client in place and returning normally, rather than propagating the exception.
