/** The SensorThings entities the processor's Service handles: observations,
    the (Multi)Datastreams that own them, and the DataArray batches that
    group observations of one stream for a bulk create. */
module Entities {

  datatype Option<+T> = None | Some(value: T)

  /** A reference to the stream that owns an observation. A stream is
      identified by its kind and id; the model treats two references to the
      same stream as the same object, so the reference comparison of the
      last-used cache and the `equals` lookup in the batch map coincide. */
  datatype Stream = Datastream(id: nat) | MultiDatastream(id: nat)

  /** An observation as far as the Service looks at it: an optional entity
      id, the optional links to its Datastream and MultiDatastream, and the
      optional fields that decide a DataArray's component set. An absent
      field is Java's null. */
  datatype Observation = Observation(
    id: Option<nat>,
    datastream: Option<nat>,
    multiDatastream: Option<nat>,
    phenomenonTime: Option<string>,
    resultTime: Option<string>,
    resultQuality: Option<string>,
    parameters: Option<string>,
    validTime: Option<string>)

  /** The components a DataArray can carry per observation. */
  datatype Property = Result | PhenomenonTime | ResultTime | ResultQuality | Parameters | ValidTime

  /** A DataArray value: the stream it belongs to, the component set fixed
      when it was created, and the observations appended so far, in order. */
  datatype Batch = Batch(stream: Stream, properties: set<Property>, observations: seq<Observation>)

  /** The stream an observation is batched under: its Datastream when it has
      one, otherwise its MultiDatastream, otherwise none. */
  function StreamOf(o: Observation): (s: Option<Stream>)
    ensures s.None? <==> o.datastream.None? && o.multiDatastream.None?
    ensures s.Some? && s.value.Datastream? <==> o.datastream.Some?
    ensures s.Some? ==> s.value.id == if o.datastream.Some? then o.datastream.value else o.multiDatastream.value
  {
    if o.datastream.Some? then Some(Datastream(o.datastream.value))
    else if o.multiDatastream.Some? then Some(MultiDatastream(o.multiDatastream.value))
    else None
  }

  /** The components a new DataArray gets from the observation that creates
      it: always the result, and each optional field that is present. */
  function DefinedProperties(o: Observation): (props: set<Property>)
    ensures Result in props
    ensures PhenomenonTime in props <==> o.phenomenonTime.Some?
    ensures ResultTime in props <==> o.resultTime.Some?
    ensures ResultQuality in props <==> o.resultQuality.Some?
    ensures Parameters in props <==> o.parameters.Some?
    ensures ValidTime in props <==> o.validTime.Some?
  {
    {Result}
    + (if o.phenomenonTime.Some? then {PhenomenonTime} else {})
    + (if o.resultTime.Some? then {ResultTime} else {})
    + (if o.resultQuality.Some? then {ResultQuality} else {})
    + (if o.parameters.Some? then {Parameters} else {})
    + (if o.validTime.Some? then {ValidTime} else {})
  }

  /** Two observations have the same shape when the same optional fields are present. */
  predicate SameShape(o1: Observation, o2: Observation) {
    && o1.phenomenonTime.Some? == o2.phenomenonTime.Some?
    && o1.resultTime.Some? == o2.resultTime.Some?
    && o1.resultQuality.Some? == o2.resultQuality.Some?
    && o1.parameters.Some? == o2.parameters.Some?
    && o1.validTime.Some? == o2.validTime.Some?
  }

  /** The component set records exactly which optional fields are present:
      two observations get the same set if and only if they have the same shape. */
  lemma DefinedPropertiesDeterminesShape(o1: Observation, o2: Observation)
    ensures DefinedProperties(o1) == DefinedProperties(o2) <==> SameShape(o1, o2)
  {
    if DefinedProperties(o1) == DefinedProperties(o2) {
      var p1, p2 := DefinedProperties(o1), DefinedProperties(o2);
      assert PhenomenonTime in p1 <==> PhenomenonTime in p2;
      assert ResultTime in p1 <==> ResultTime in p2;
      assert ResultQuality in p1 <==> ResultQuality in p2;
      assert Parameters in p1 <==> Parameters in p2;
      assert ValidTime in p1 <==> ValidTime in p2;
    }
  }
}
