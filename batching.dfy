/** The pure side of the Service's observation handling: the routing
    decision of addObservation, the batch map as a value with the effect of
    one batched add and of a run of them, and the error count of a bulk
    DataArray create. */
module Batching {
  import opened Entities

  /** The path addObservation sends an observation down. */
  datatype Route =
    | Rejected  // the validator refused it: nothing happens
    | Updated   // it has an id and the Service acts: one update call
    | Created   // no id, no DataArrays, the Service acts: one create call
    | Batched   // DataArrays are on: appended to its stream's batch
    | Dropped   // noAct without DataArrays: silently ignored

  /** The decision chain of addObservation. Its contract gives each route in
      closed form, independent of the order in which the chain tests. */
  function RouteOf(valid: bool, hasId: bool, noAct: bool, useDataArrays: bool): (r: Route)
    ensures r == Rejected <==> !valid
    ensures r == Updated <==> valid && hasId && !noAct
    ensures r == Created <==> valid && !hasId && !noAct && !useDataArrays
    ensures r == Batched <==> valid && useDataArrays && (noAct || !hasId)
    ensures r == Dropped <==> valid && noAct && !useDataArrays
  {
    if !valid then Rejected
    else if hasId && !noAct then Updated
    else if !useDataArrays && !noAct then Created
    else if useDataArrays then Batched
    else Dropped
  }

  /** The invariant of the batch map: every batch is keyed by its own stream
      and holds at least the observation that created it. */
  ghost predicate WellKeyed(m: map<Stream, Batch>) {
    forall s :: s in m ==> m[s].stream == s && m[s].observations != []
  }

  /** The batch map after appending `o` under stream `s`: a stream seen
      before keeps its component set and gets `o` at the end; a new stream
      gets a fresh batch whose component set comes from `o`. */
  function Appended(m: map<Stream, Batch>, s: Stream, o: Observation): (r: map<Stream, Batch>)
    requires WellKeyed(m)
    ensures WellKeyed(r)
    ensures r.Keys == m.Keys + {s}
    ensures r[s].stream == s
    ensures r[s].observations == (if s in m then m[s].observations else []) + [o]
    ensures r[s].properties == if s in m then m[s].properties else DefinedProperties(o)
    ensures forall t :: t in m && t != s ==> r[t] == m[t]
  {
    if s in m then m[s := m[s].(observations := m[s].observations + [o])]
    else m[s := Batch(s, DefinedProperties(o), [o])]
  }

  /** Creating an empty batch for a new stream and then appending to it is
      the same as one batched add. */
  lemma AppendedViaEmpty(m: map<Stream, Batch>, s: Stream, o: Observation)
    requires WellKeyed(m)
    ensures var m0 := if s in m then m else m[s := Batch(s, DefinedProperties(o), [])];
      m0[s := m0[s].(observations := m0[s].observations + [o])] == Appended(m, s, o)
  {
    if s !in m {
      assert [] + [o] == [o];
    }
  }

  /** Every observation of `os` names a stream. */
  predicate AllStreamed(os: seq<Observation>) {
    forall i :: 0 <= i < |os| ==> StreamOf(os[i]).Some?
  }

  /** The batch map after batching each of `os` in turn. */
  function Accumulate(m: map<Stream, Batch>, os: seq<Observation>): (r: map<Stream, Batch>)
    requires WellKeyed(m) && AllStreamed(os)
    ensures WellKeyed(r)
    ensures m.Keys <= r.Keys
    decreases |os|
  {
    if os == [] then m
    else Accumulate(Appended(m, StreamOf(os[0]).value, os[0]), os[1..])
  }

  /** The observations of `os` that belong to stream `s`, in order. */
  function OfStream(os: seq<Observation>, s: Stream): seq<Observation> {
    if os == [] then []
    else (if StreamOf(os[0]) == Some(s) then [os[0]] else []) + OfStream(os[1..], s)
  }

  /** The observations batched under `s` so far; none without a batch. */
  function BatchOf(m: map<Stream, Batch>, s: Stream): seq<Observation> {
    if s in m then m[s].observations else []
  }

  /** One add extends the batch of its own stream and no other. */
  lemma BatchOfAppended(m: map<Stream, Batch>, t: Stream, o: Observation, s: Stream)
    requires WellKeyed(m)
    ensures BatchOf(Appended(m, t, o), s) == BatchOf(m, s) + if t == s then [o] else []
  {
  }

  /** Batching keeps per-stream order: after a run of adds, the batch of a
      stream holds its earlier observations followed by the new ones of that
      stream, in arrival order. */
  lemma {:induction false} AccumulatePerStream(m: map<Stream, Batch>, os: seq<Observation>, s: Stream)
    requires WellKeyed(m) && AllStreamed(os)
    ensures BatchOf(Accumulate(m, os), s) == BatchOf(m, s) + OfStream(os, s)
    decreases |os|
  {
    if os == [] {
      assert BatchOf(m, s) + [] == BatchOf(m, s);
    } else {
      var t := StreamOf(os[0]).value;
      var m' := Appended(m, t, os[0]);
      AccumulateFirst(m, os);
      AccumulatePerStream(m', os[1..], s);
      BatchOfAppended(m, t, os[0], s);
      OfStreamFirst(os, s);
      Regroup(BatchOf(m, s), if t == s then [os[0]] else [], OfStream(os[1..], s));
    }
  }

  /** A run of adds is its first add followed by the rest. */
  lemma AccumulateFirst(m: map<Stream, Batch>, os: seq<Observation>)
    requires WellKeyed(m) && AllStreamed(os) && os != []
    ensures AllStreamed(os[1..])
    ensures Accumulate(m, os) == Accumulate(Appended(m, StreamOf(os[0]).value, os[0]), os[1..])
  {
    AllStreamedTail(os);
  }

  /** The stream filter, one element at a time. */
  lemma OfStreamFirst(os: seq<Observation>, s: Stream)
    requires os != [] && StreamOf(os[0]).Some?
    ensures OfStream(os, s) == (if StreamOf(os[0]).value == s then [os[0]] else []) + OfStream(os[1..], s)
  {
  }

  /** Regrouping a three-part concatenation. */
  lemma Regroup(before: seq<Observation>, here: seq<Observation>, rest: seq<Observation>)
    ensures (before + here) + rest == before + (here + rest)
  {
  }

  /** After a run of adds, a stream has a batch exactly when it had one
      before or one of the new observations names it. */
  lemma AccumulateHasBatch(m: map<Stream, Batch>, os: seq<Observation>, s: Stream)
    requires WellKeyed(m) && AllStreamed(os)
    ensures s in Accumulate(m, os) <==> s in m || OfStream(os, s) != []
  {
    var r := Accumulate(m, os);
    AccumulatePerStream(m, os, s);
    assert s in r <==> BatchOf(r, s) != [];
    assert s in m <==> BatchOf(m, s) != [];
  }

  /** A batch's component set is fixed by the observation that created it:
      after a run of adds, a stream keeps the set it had, and a stream new to
      the map gets the set of its first new observation. */
  lemma {:induction false} AccumulateKeepsProperties(m: map<Stream, Batch>, os: seq<Observation>, s: Stream)
    requires WellKeyed(m) && AllStreamed(os)
    requires s in m || OfStream(os, s) != []
    ensures s in Accumulate(m, os)
    ensures Accumulate(m, os)[s].properties == if s in m then m[s].properties else DefinedProperties(OfStream(os, s)[0])
    decreases |os|
  {
    if os != [] {
      var t := StreamOf(os[0]).value;
      var m' := Appended(m, t, os[0]);
      AllStreamedTail(os);
      assert Accumulate(m, os) == Accumulate(m', os[1..]);
      if t == s {
        assert OfStream(os, s)[0] == os[0];
        assert s in m' && m'[s].properties == if s in m then m[s].properties else DefinedProperties(os[0]);
        AccumulateKeepsProperties(m', os[1..], s);
      } else {
        assert OfStream(os, s) == OfStream(os[1..], s);
        assert s in m ==> m'[s] == m[s];
        AccumulateKeepsProperties(m', os[1..], s);
      }
    }
  }

  /** Dropping the first observation keeps every one streamed. */
  lemma AllStreamedTail(os: seq<Observation>)
    requires os != [] && AllStreamed(os)
    ensures AllStreamed(os[1..])
  {
    forall i | 0 <= i < |os[1..]| ensures StreamOf(os[1..][i]).Some? {
      assert os[1..][i] == os[i + 1];
    }
  }

  /** N observations of one stream, batched from an empty map, give exactly
      one batch holding all N in order, shaped by the first. */
  lemma SingleStreamBatch(os: seq<Observation>, s: Stream)
    requires os != []
    requires forall i :: 0 <= i < |os| ==> StreamOf(os[i]) == Some(s)
    ensures Accumulate(map[], os) == map[s := Batch(s, DefinedProperties(os[0]), os)]
  {
    var first := map[s := Batch(s, DefinedProperties(os[0]), [os[0]])];
    assert Appended(map[], s, os[0]) == first;
    OneStreamGrows(s, DefinedProperties(os[0]), [os[0]], os[1..]);
    assert [os[0]] + os[1..] == os;
  }

  /** Batching more observations of the only stream in the map extends its batch. */
  lemma {:induction false} OneStreamGrows(s: Stream, props: set<Property>, pre: seq<Observation>, os: seq<Observation>)
    requires pre != []
    requires forall i :: 0 <= i < |os| ==> StreamOf(os[i]) == Some(s)
    ensures AllStreamed(os)
    ensures Accumulate(map[s := Batch(s, props, pre)], os) == map[s := Batch(s, props, pre + os)]
    decreases |os|
  {
    if os == [] {
      assert pre + os == pre;
    } else {
      var m := map[s := Batch(s, props, pre)];
      assert Appended(m, s, os[0]) == map[s := Batch(s, props, pre + [os[0]])];
      OneStreamGrows(s, props, pre + [os[0]], os[1..]);
      assert pre + [os[0]] + os[1..] == pre + os;
    }
  }

  /** A run of one stream's observations extends that stream's batch by
      exactly the run, in order, and leaves every other stream's batch as it
      was. */
  lemma OneStreamRunPerStream(m: map<Stream, Batch>, os: seq<Observation>, s: Stream, t: Stream)
    requires WellKeyed(m)
    requires forall i :: 0 <= i < |os| ==> StreamOf(os[i]) == Some(s)
    ensures AllStreamed(os)
    ensures BatchOf(Accumulate(m, os), s) == BatchOf(m, s) + os
    ensures t != s ==> BatchOf(Accumulate(m, os), t) == BatchOf(m, t)
  {
    AccumulatePerStream(m, os, s);
    OfStreamAll(os, s);
    if t != s {
      AccumulatePerStream(m, os, t);
      OfStreamNone(os, t);
      assert BatchOf(m, t) + [] == BatchOf(m, t);
    }
  }

  /** Filtering a run of one stream's observations keeps them all. */
  lemma {:induction false} OfStreamAll(os: seq<Observation>, s: Stream)
    requires forall i :: 0 <= i < |os| ==> StreamOf(os[i]) == Some(s)
    ensures OfStream(os, s) == os
  {
    if os != [] {
      OfStreamAll(os[1..], s);
    }
  }

  /** Filtering for a stream none of them names keeps nothing. */
  lemma {:induction false} OfStreamNone(os: seq<Observation>, t: Stream)
    requires forall i :: 0 <= i < |os| ==> StreamOf(os[i]) != Some(t)
    ensures OfStream(os, t) == []
  {
    if os != [] {
      OfStreamNone(os[1..], t);
    }
  }

  /** A bulk create result that reports a failed item. */
  predicate IsError(location: string) {
    "error" <= location
  }

  /** The number of error results in a bulk create's result list. */
  function ErrorCount(locations: seq<string>): (n: nat)
    ensures n <= |locations|
    ensures n == 0 <==> forall i :: 0 <= i < |locations| ==> !IsError(locations[i])
    ensures n == |locations| <==> forall i :: 0 <= i < |locations| ==> IsError(locations[i])
  {
    if locations == [] then 0
    else (if IsError(locations[0]) then 1 else 0) + ErrorCount(locations[1..])
  }

  /** Error counts of consecutive parts of a result list add up. */
  lemma {:induction false} ErrorCountAppend(a: seq<string>, b: seq<string>)
    ensures ErrorCount(a + b) == ErrorCount(a) + ErrorCount(b)
  {
    if a != [] {
      ErrorCountAppend(a[1..], b);
      assert (a + b)[1..] == a[1..] + b;
    } else {
      assert a + b == b;
    }
  }

  /** The worked flush of three results with one failure counts two inserts. */
  lemma ErrorCountExample()
    ensures |["loc1", "error: duplicate", "loc3"]| - ErrorCount(["loc1", "error: duplicate", "loc3"]) == 2
  {
    assert !IsError("loc1") && IsError("error: duplicate") && !IsError("loc3");
    assert ["loc1", "error: duplicate", "loc3"][1..] == ["error: duplicate", "loc3"];
    assert ["error: duplicate", "loc3"][1..] == ["loc3"];
  }
}
