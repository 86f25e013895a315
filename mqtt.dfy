/** The pure side of the Service's MQTT bookkeeping: the subscription
    registry as a value, the wire calls the bulk registry operations issue,
    how often each (topic, listener) pair is sent, and the client id choice. */
module Mqtt {

  /** A message listener, compared by identity. */
  datatype Listener = Listener(id: nat)

  /** The Service's MQTT client: absent, or present and connected or not. */
  datatype ClientState = NoClient | Client(connected: bool)

  /** A call issued to the broker through the client. */
  datatype WireCall =
    | WireConnect(clientId: string)
    | WireSubscribe(topic: string, listener: Listener)
    | WireUnsubscribe(topic: string)
    | WireDisconnect

  /** Topic to the listeners registered for it, in registration order. */
  type Registry = map<string, seq<Listener>>

  /** The Service talks to the broker only through a present, connected client. */
  predicate IsConnected(c: ClientState) {
    c.Client? && c.connected
  }

  /** The listeners of a topic; a topic without an entry has none. */
  function ListenersOf(reg: Registry, topic: string): seq<Listener> {
    if topic in reg then reg[topic] else []
  }

  /** The registry after subscribe: the listener goes to the end of the
      topic's list, which is created when absent; other topics keep theirs. */
  function Subscribed(reg: Registry, topic: string, l: Listener): (r: Registry)
    ensures r.Keys == reg.Keys + {topic}
    ensures r[topic] == ListenersOf(reg, topic) + [l]
    ensures forall t :: t in reg && t != topic ==> r[t] == reg[t]
  {
    reg[topic := ListenersOf(reg, topic) + [l]]
  }

  /** The registry after removeSubscriptions: the topic's whole entry goes. */
  function Removed(reg: Registry, topic: string): (r: Registry)
    ensures topic !in r
    ensures forall t :: t != topic ==> (t in r <==> t in reg)
    ensures forall t :: t in r ==> r[t] == reg[t]
  {
    reg - {topic}
  }

  /** Removing a topic undoes every subscription made to it. */
  lemma RemoveUndoesSubscribe(reg: Registry, topic: string, l: Listener)
    ensures Removed(Subscribed(reg, topic, l), topic) == Removed(reg, topic)
  {
  }

  /** Two subscriptions to one topic keep both listeners, in call order. */
  lemma SubscribeTwiceKeepsBoth(reg: Registry, topic: string, l1: Listener, l2: Listener)
    ensures ListenersOf(Subscribed(Subscribed(reg, topic, l1), topic, l2), topic) == ListenersOf(reg, topic) + [l1, l2]
  {
  }

  /** No topic occurs twice in `topics`. */
  predicate Distinct(topics: seq<string>) {
    forall i, j :: 0 <= i < j < |topics| ==> topics[i] != topics[j]
  }

  /** `topics` lists the elements of `keys`, each once, in some order. */
  ghost predicate Enumerates(topics: seq<string>, keys: set<string>) {
    Distinct(topics) && |topics| == |keys| && forall t :: t in keys <==> t in topics
  }

  /** Snapshot of the registry's topics in an unspecified order, as an
      iteration over the key set does. */
  method TopicsOf(reg: Registry) returns (topics: seq<string>)
    ensures Enumerates(topics, reg.Keys)
  {
    topics := [];
    var rest := reg.Keys;
    while rest != {}
      invariant forall t :: t in reg.Keys <==> t in rest || t in topics
      invariant forall t :: t in rest ==> t !in topics
      invariant Distinct(topics)
      invariant |topics| + |rest| == |reg.Keys|
      decreases rest
    {
      var t :| t in rest;
      topics := topics + [t];
      rest := rest - {t};
    }
  }

  /** The subscribe calls for the listeners of one topic, in list order. */
  function ListenerCalls(topic: string, ls: seq<Listener>): (calls: seq<WireCall>)
    ensures |calls| == |ls|
  {
    if ls == [] then []
    else ListenerCalls(topic, ls[..|ls| - 1]) + [WireSubscribe(topic, ls[|ls| - 1])]
  }

  /** The subscribe calls resubscribeAll issues when it visits `topics` in this order. */
  function SubscribeCalls(reg: Registry, topics: seq<string>): (calls: seq<WireCall>)
    requires InRegistry(reg, topics)
  {
    if topics == [] then []
    else
      var last := topics[|topics| - 1];
      SubscribeCalls(reg, topics[..|topics| - 1]) + ListenerCalls(last, reg[last])
  }

  /** Every topic of `topics` has an entry in the registry. */
  predicate InRegistry(reg: Registry, topics: seq<string>) {
    forall i :: 0 <= i < |topics| ==> topics[i] in reg
  }

  /** Visiting one more topic appends that topic's listener calls. */
  lemma SubscribeCallsStep(reg: Registry, topics: seq<string>, i: nat)
    requires InRegistry(reg, topics) && i < |topics|
    ensures SubscribeCalls(reg, topics[..i + 1]) == SubscribeCalls(reg, topics[..i]) + ListenerCalls(topics[i], reg[topics[i]])
  {
    assert topics[..i + 1][..i] == topics[..i];
  }

  /** The unsubscribe calls for `topics`, in order. */
  function UnsubscribeCalls(topics: seq<string>): (calls: seq<WireCall>)
    ensures |calls| == |topics|
  {
    if topics == [] then []
    else UnsubscribeCalls(topics[..|topics| - 1]) + [WireUnsubscribe(topics[|topics| - 1])]
  }

  /** Visiting one more topic appends its unsubscribe call. */
  lemma UnsubscribeCallsStep(topics: seq<string>, i: nat)
    requires i < |topics|
    ensures UnsubscribeCalls(topics[..i + 1]) == UnsubscribeCalls(topics[..i]) + [WireUnsubscribe(topics[i])]
  {
    assert topics[..i + 1][..i] == topics[..i];
  }

  /** The registry after removing each of `topics` in turn. */
  function RemovedAll(reg: Registry, topics: seq<string>): Registry {
    if topics == [] then reg
    else Removed(RemovedAll(reg, topics[..|topics| - 1]), topics[|topics| - 1])
  }

  /** Removing a run of topics leaves exactly the entries of the other
      topics, untouched. */
  lemma {:induction false} RemovedAllKeeps(reg: Registry, topics: seq<string>, t: string)
    ensures t in RemovedAll(reg, topics) <==> t in reg && t !in topics
    ensures t in RemovedAll(reg, topics) ==> RemovedAll(reg, topics)[t] == reg[t]
  {
    if topics != [] {
      var init := topics[..|topics| - 1];
      RemovedAllKeeps(reg, init, t);
      assert topics == init + [topics[|topics| - 1]];
    }
  }

  /** Removing one more topic of the order removes its entry. */
  lemma RemovedAllStep(reg: Registry, topics: seq<string>, i: nat)
    requires i < |topics|
    ensures RemovedAll(reg, topics[..i + 1]) == Removed(RemovedAll(reg, topics[..i]), topics[i])
  {
    assert topics[..i + 1][..i] == topics[..i];
  }

  /** Removing every topic of an enumeration of the keys empties the registry. */
  lemma RemovedAllEmpties(reg: Registry, topics: seq<string>)
    requires Enumerates(topics, reg.Keys)
    ensures RemovedAll(reg, topics) == map[]
  {
    var r := RemovedAll(reg, topics);
    forall t | t in reg ensures t in topics && t !in r {
      RemovedAllKeeps(reg, topics, t);
    }
    forall t | t in r ensures t in reg {
      RemovedAllKeeps(reg, topics, t);
    }
    assert r.Keys == {};
  }

  /** The listener calls of one topic send each listener as often as it is registered. */
  lemma {:induction false} ListenerCallsCount(topic: string, ls: seq<Listener>, u: string, l: Listener)
    ensures multiset(ListenerCalls(topic, ls))[WireSubscribe(u, l)] == if u == topic then multiset(ls)[l] else 0
  {
    if ls != [] {
      var init := ls[..|ls| - 1];
      ListenerCallsCount(topic, init, u, l);
      assert ls == init + [ls[|ls| - 1]];
    }
  }

  /** Resubscribing visits each topic of the order once, so the pair (u, l)
      is sent once per registration of l under u, and never for a topic
      outside the order. */
  lemma {:induction false} SubscribeCallsCount(reg: Registry, topics: seq<string>, u: string, l: Listener)
    requires InRegistry(reg, topics)
    requires Distinct(topics)
    ensures multiset(SubscribeCalls(reg, topics))[WireSubscribe(u, l)] == if u in topics then multiset(reg[u])[l] else 0
  {
    if topics != [] {
      var init, last := topics[..|topics| - 1], topics[|topics| - 1];
      SubscribeCallsCount(reg, init, u, l);
      ListenerCallsCount(last, reg[last], u, l);
      assert topics == init + [last];
      assert last !in init;
    }
  }

  /** A full replay over an enumeration of the registry's topics sends every
      registered (topic, listener) pair exactly as often as it is registered. */
  lemma ResubscribeSendsEachPair(reg: Registry, topics: seq<string>, u: string, l: Listener)
    requires Enumerates(topics, reg.Keys)
    ensures multiset(SubscribeCalls(reg, topics))[WireSubscribe(u, l)] == multiset(ListenersOf(reg, u))[l]
  {
    SubscribeCallsCount(reg, topics, u, l);
  }

  /** Each listener call subscribes `topic` with a listener of `ls`. */
  lemma {:induction false} ListenerCallsFrom(topic: string, ls: seq<Listener>, k: nat)
    requires k < |ls|
    ensures ListenerCalls(topic, ls)[k] == WireSubscribe(topic, ls[k])
  {
    var init := ls[..|ls| - 1];
    if k < |init| {
      ListenerCallsFrom(topic, init, k);
    }
  }

  /** A replay sends nothing but registered pairs: every call subscribes a
      visited topic with one of that topic's registered listeners. */
  lemma {:induction false} SubscribeCallsOnlyRegistered(reg: Registry, topics: seq<string>, k: nat)
    requires InRegistry(reg, topics)
    requires k < |SubscribeCalls(reg, topics)|
    ensures SubscribeCalls(reg, topics)[k].WireSubscribe?
    ensures SubscribeCalls(reg, topics)[k].topic in topics
    ensures SubscribeCalls(reg, topics)[k].listener in reg[SubscribeCalls(reg, topics)[k].topic]
  {
    var init, last := topics[..|topics| - 1], topics[|topics| - 1];
    assert InRegistry(reg, init);
    var head := SubscribeCalls(reg, init);
    if k < |head| {
      SubscribeCallsOnlyRegistered(reg, init, k);
    } else {
      ListenerCallsFrom(last, reg[last], k - |head|);
    }
  }

  /** Unsubscribing a distinct list of topics sends each topic exactly once. */
  lemma {:induction false} UnsubscribeCallsOnce(topics: seq<string>, u: string)
    requires Distinct(topics)
    ensures multiset(UnsubscribeCalls(topics))[WireUnsubscribe(u)] == if u in topics then 1 else 0
    ensures forall c :: c in UnsubscribeCalls(topics) ==> c.WireUnsubscribe? && c.topic in topics
  {
    if topics != [] {
      var init, last := topics[..|topics| - 1], topics[|topics| - 1];
      UnsubscribeCallsOnce(init, u);
      assert topics == init + [last];
      assert last !in init;
    }
  }

  const ClientIdPrefix: string := "processor-"

  /** The client id getClientId settles on: the memoised id when there is
      one, else the configured one when that is non-empty, else the prefix
      followed by a generated value. Null and empty are both "". */
  function ChooseClientId(current: string, configured: string, generated: string): (id: string)
    ensures id != ""
    ensures current != "" ==> id == current
    ensures current == "" && configured != "" ==> id == configured
    ensures current == "" && configured == "" ==> id == ClientIdPrefix + generated
  {
    if current != "" then current
    else if configured != "" then configured
    else ClientIdPrefix + generated
  }

  /** Memoisation: once chosen, the id survives every later call, whatever
      value those calls would have generated. */
  lemma ClientIdStable(current: string, configured: string, g1: string, g2: string)
    ensures ChooseClientId(ChooseClientId(current, configured, g1), configured, g2)
         == ChooseClientId(current, configured, g1)
  {
  }
}
