/**
 * One polling cycle of the buienradar.nl observation loop: the sentinel
 * normalisation, the region filter, the eight-field message building of a
 * station and the hand-off of the messages, in feed order.
 *
 * The fetched and parsed feed is an input (a sequence of observations),
 * and the messages sent on the channel are the output sequence.
 */
module Buienradar {
  import opened Wrappers
  import opened Text
  import opened Messages
  import opened Seqs

  /** The `stationnaam` element: its `regio` attribute and its text. */
  datatype StationData = StationData(region: string, name: string)

  /** One `weerstation` of the feed, every value still as raw text. */
  datatype Observation = Observation(
    code: string,
    station: StationData,
    lat: string,
    lon: string,
    humidity: string,
    temperatureGround: string,
    temperature10cm: string,
    windSpeed: string,
    gustSpeed: string,
    airPressure: string,
    sightRange: string,
    rain: string)

  /** The feed's marker for a value that is not available. */
  const Sentinel: string := "-"

  // ---------------------------------------------------------------------
  // Sentinel normalisation
  // ---------------------------------------------------------------------

  /** Maps the sentinel to the empty string and leaves every other value alone. */
  function Normalize(value: string): (r: string)
    ensures r != Sentinel
    ensures r == "" <==> value == Sentinel || value == ""
    ensures r != "" ==> r == value
  {
    if value == Sentinel then "" else value
  }

  /** A field is published when its normalised value is non-empty. */
  predicate Present(value: string) {
    |Normalize(value)| > 0
  }

  lemma PresentIff(value: string)
    ensures Present(value) <==> value != "" && value != Sentinel
  {
  }

  // ---------------------------------------------------------------------
  // Region key
  // ---------------------------------------------------------------------

  /** The region lower-cased, with every space replaced by '-'. */
  function RegionKey(region: string): (r: string)
    ensures |r| == |region|
    ensures forall i :: 0 <= i < |r| ==> r[i] != ' ' && !IsUpperAscii(r[i])
    ensures forall i :: 0 <= i < |r| ==> r[i] == if region[i] == ' ' then '-' else LowerChar(region[i])
  {
    ReplaceChar(ToLower(region), ' ', '-')
  }

  /** A region key is its own key. */
  lemma RegionKeyIdempotent(region: string)
    ensures RegionKey(RegionKey(region)) == RegionKey(region)
  {
  }

  /** A configured region holding a space or an upper-case ASCII letter is never any station's key. */
  lemma UnmatchableRegion(configured: string, region: string)
    requires exists i :: 0 <= i < |configured| && (configured[i] == ' ' || IsUpperAscii(configured[i]))
    ensures RegionKey(region) != configured
  {
  }

  // ---------------------------------------------------------------------
  // The eight tracked fields
  // ---------------------------------------------------------------------

  /** A tracked field: its topic suffix and its raw value. */
  datatype Field = Field(name: string, value: string)

  /** Topic suffixes of the tracked fields, in the order they are checked. */
  const FieldNames: seq<string> :=
    ["humidity", "temperature.ground", "temperature.10cm", "wind", "gust", "pressure", "rain", "sight"]

  /** The tracked fields of an observation, in the order they are checked. */
  function Fields(o: Observation): (r: seq<Field>)
    ensures |r| == |FieldNames| == 8
    ensures forall i :: 0 <= i < |r| ==> r[i].name == FieldNames[i]
  {
    [ Field("humidity", o.humidity),
      Field("temperature.ground", o.temperatureGround),
      Field("temperature.10cm", o.temperature10cm),
      Field("wind", o.windSpeed),
      Field("gust", o.gustSpeed),
      Field("pressure", o.airPressure),
      Field("rain", o.rain),
      Field("sight", o.sightRange) ]
  }

  /** The tracked names are pairwise distinct. */
  lemma FieldNamesDistinct()
    ensures forall a, b :: 0 <= a < b < |FieldNames| ==> FieldNames[a] != FieldNames[b]
  {
  }

  function Keep(f: Field): seq<Field> {
    if Present(f.value) then [f] else []
  }

  /** The present fields of `fs`, in their order in `fs`. */
  function PresentFields(fs: seq<Field>): (pf: seq<Field>)
    ensures |pf| <= |fs|
  {
    if fs == [] then [] else PresentFields(fs[..|fs| - 1]) + Keep(fs[|fs| - 1])
  }

  /** The positions of the present fields of `fs`, in increasing order. */
  function PresentIndices(fs: seq<Field>): seq<nat> {
    if fs == [] then []
    else PresentIndices(fs[..|fs| - 1]) + if Present(fs[|fs| - 1].value) then [|fs| - 1] else []
  }

  /** The j-th present field is field `PresentIndices(fs)[j]` of `fs`. */
  lemma {:induction false} PresentIndicesSelect(fs: seq<Field>)
    ensures |PresentIndices(fs)| == |PresentFields(fs)|
    ensures forall j :: 0 <= j < |PresentIndices(fs)| ==>
      PresentIndices(fs)[j] < |fs| && PresentFields(fs)[j] == fs[PresentIndices(fs)[j]]
  {
    if fs != [] {
      var init := fs[..|fs| - 1];
      PresentIndicesSelect(init);
      assert forall i :: 0 <= i < |init| ==> init[i] == fs[i];
    }
  }

  /** The positions of the present fields increase, and are exactly the positions of present values. */
  lemma {:induction false} PresentIndicesExact(fs: seq<Field>)
    ensures forall j :: 0 <= j < |PresentIndices(fs)| ==> PresentIndices(fs)[j] < |fs|
    ensures forall j, k :: 0 <= j < k < |PresentIndices(fs)| ==> PresentIndices(fs)[j] < PresentIndices(fs)[k]
    ensures forall i :: 0 <= i < |fs| ==> (Present(fs[i].value) <==> i in PresentIndices(fs))
  {
    if fs != [] {
      var init := fs[..|fs| - 1];
      PresentIndicesExact(init);
      assert forall i :: 0 <= i < |init| ==> init[i] == fs[i];
    }
  }

  /**
   * The present fields are exactly the fields of `fs` whose value is
   * present, each once, in the order of `fs`.
   */
  lemma PresentIndicesSpec(fs: seq<Field>)
    ensures |PresentIndices(fs)| == |PresentFields(fs)|
    ensures forall j :: 0 <= j < |PresentIndices(fs)| ==>
      PresentIndices(fs)[j] < |fs| && PresentFields(fs)[j] == fs[PresentIndices(fs)[j]]
    ensures forall j, k :: 0 <= j < k < |PresentIndices(fs)| ==> PresentIndices(fs)[j] < PresentIndices(fs)[k]
    ensures forall i :: 0 <= i < |fs| ==> (Present(fs[i].value) <==> i in PresentIndices(fs))
  {
    PresentIndicesSelect(fs);
    PresentIndicesExact(fs);
  }

  lemma PresentFieldsSnoc(fs: seq<Field>, f: Field)
    ensures PresentFields(fs + [f]) == PresentFields(fs) + Keep(f)
  {
  }

  /** The present fields of an observation, spelled out as eight optional pieces. */
  lemma PresentFieldsOfStation(o: Observation)
    ensures PresentFields(Fields(o)) ==
      Keep(Field("humidity", o.humidity)) + Keep(Field("temperature.ground", o.temperatureGround)) +
      Keep(Field("temperature.10cm", o.temperature10cm)) + Keep(Field("wind", o.windSpeed)) +
      Keep(Field("gust", o.gustSpeed)) + Keep(Field("pressure", o.airPressure)) +
      Keep(Field("rain", o.rain)) + Keep(Field("sight", o.sightRange))
  {
    var fs := Fields(o);
    assert fs == [] + [fs[0]] + [fs[1]] + [fs[2]] + [fs[3]] + [fs[4]] + [fs[5]] + [fs[6]] + [fs[7]];
    PresentFieldsSnoc([], fs[0]);
    PresentFieldsSnoc([] + [fs[0]], fs[1]);
    PresentFieldsSnoc([] + [fs[0]] + [fs[1]], fs[2]);
    PresentFieldsSnoc([] + [fs[0]] + [fs[1]] + [fs[2]], fs[3]);
    PresentFieldsSnoc([] + [fs[0]] + [fs[1]] + [fs[2]] + [fs[3]], fs[4]);
    PresentFieldsSnoc([] + [fs[0]] + [fs[1]] + [fs[2]] + [fs[3]] + [fs[4]], fs[5]);
    PresentFieldsSnoc([] + [fs[0]] + [fs[1]] + [fs[2]] + [fs[3]] + [fs[4]] + [fs[5]], fs[6]);
    PresentFieldsSnoc([] + [fs[0]] + [fs[1]] + [fs[2]] + [fs[3]] + [fs[4]] + [fs[5]] + [fs[6]], fs[7]);
  }

  // ---------------------------------------------------------------------
  // Per-station messages
  // ---------------------------------------------------------------------

  /** `tpcs` and `msgs` are index-aligned with `fs`: entry i is field i's topic and raw value. */
  ghost predicate Aligned(base: string, tpcs: seq<string>, msgs: seq<string>, fs: seq<Field>) {
    && |tpcs| == |fs|
    && |msgs| == |fs|
    && forall i :: 0 <= i < |fs| ==> tpcs[i] == Join(base, fs[i].name) && msgs[i] == fs[i].value
  }

  /** The messages a matching station produces: one per present field, retain off. */
  function StationMessages(base: string, o: Observation): (r: seq<Message>)
    ensures |r| <= |FieldNames|
    ensures forall i :: 0 <= i < |r| ==> !r[i].retain
  {
    var pf := PresentFields(Fields(o));
    seq(|pf|, i requires 0 <= i < |pf| => Message(Join(base, pf[i].name), pf[i].value, false))
  }

  /**
   * The check made for one field: if its normalised value is non-empty, its
   * topic `base/name` joins `tpcs` and its raw value joins `msgs`.
   */
  method AppendIfPresent(base: string, tpcs: seq<string>, msgs: seq<string>, field: Field,
                         ghost done: seq<Field>)
    returns (tpcs': seq<string>, msgs': seq<string>)
    requires Aligned(base, tpcs, msgs, done)
    ensures Aligned(base, tpcs', msgs', done + Keep(field))
  {
    tpcs', msgs' := tpcs, msgs;
    if |Normalize(field.value)| > 0 {
      tpcs' := tpcs' + [Join(base, field.name)];
      msgs' := msgs' + [field.value];
    }
  }

  /**
   * The eight checks of a station, in order. `tpcs` and `msgs` grow
   * together and stay index-aligned with the present fields found so far.
   */
  method BuildFields(base: string, location: Observation) returns (tpcs: seq<string>, msgs: seq<string>)
    ensures |tpcs| == |msgs|
    ensures Aligned(base, tpcs, msgs, PresentFields(Fields(location)))
  {
    tpcs, msgs := [], [];
    tpcs, msgs := AppendIfPresent(base, tpcs, msgs, Field("humidity", location.humidity), []);
    ghost var done := Keep(Field("humidity", location.humidity));
    assert [] + done == done;
    tpcs, msgs := AppendIfPresent(base, tpcs, msgs, Field("temperature.ground", location.temperatureGround), done);
    done := done + Keep(Field("temperature.ground", location.temperatureGround));
    tpcs, msgs := AppendIfPresent(base, tpcs, msgs, Field("temperature.10cm", location.temperature10cm), done);
    done := done + Keep(Field("temperature.10cm", location.temperature10cm));
    tpcs, msgs := AppendIfPresent(base, tpcs, msgs, Field("wind", location.windSpeed), done);
    done := done + Keep(Field("wind", location.windSpeed));
    tpcs, msgs := AppendIfPresent(base, tpcs, msgs, Field("gust", location.gustSpeed), done);
    done := done + Keep(Field("gust", location.gustSpeed));
    tpcs, msgs := AppendIfPresent(base, tpcs, msgs, Field("pressure", location.airPressure), done);
    done := done + Keep(Field("pressure", location.airPressure));
    tpcs, msgs := AppendIfPresent(base, tpcs, msgs, Field("rain", location.rain), done);
    done := done + Keep(Field("rain", location.rain));
    tpcs, msgs := AppendIfPresent(base, tpcs, msgs, Field("sight", location.sightRange), done);
    done := done + Keep(Field("sight", location.sightRange));
    PresentFieldsOfStation(location);
  }

  /** Sends one message per index of `msgs`, pairing it with the topic at the same index. */
  method SendAll(tpcs: seq<string>, msgs: seq<string>) returns (sent: seq<Message>)
    requires |msgs| <= |tpcs|
    ensures |sent| == |msgs|
    ensures forall i :: 0 <= i < |msgs| ==> sent[i] == Message(tpcs[i], msgs[i], false)
  {
    sent := [];
    for idx := 0 to |msgs|
      invariant |sent| == idx
      invariant forall i :: 0 <= i < idx ==> sent[i] == Message(tpcs[i], msgs[i], false)
    {
      sent := sent + [Message(tpcs[idx], msgs[idx], false)];
    }
  }

  /**
   * What a matching station sends: exactly its present fields, in field
   * order, each message carrying that same field's topic and raw value,
   * with retain off; so at most eight messages, none with an empty or
   * sentinel payload.
   */
  lemma StationMessagesSpec(base: string, o: Observation)
    ensures |StationMessages(base, o)| == |PresentIndices(Fields(o))| <= 8
    ensures forall j :: 0 <= j < |StationMessages(base, o)| ==>
      var i := PresentIndices(Fields(o))[j];
      && i < 8
      && StationMessages(base, o)[j] == Message(Join(base, FieldNames[i]), Fields(o)[i].value, false)
    ensures forall j, k :: 0 <= j < k < |StationMessages(base, o)| ==>
      PresentIndices(Fields(o))[j] < PresentIndices(Fields(o))[k]
    ensures forall i :: 0 <= i < 8 ==> (Present(Fields(o)[i].value) <==> i in PresentIndices(Fields(o)))
    ensures forall m :: m in StationMessages(base, o) ==> !m.retain && m.payload != "" && m.payload != Sentinel
  {
    PresentIndicesSpec(Fields(o));
    forall m | m in StationMessages(base, o)
      ensures !m.retain && m.payload != "" && m.payload != Sentinel
    {
      var j :| 0 <= j < |StationMessages(base, o)| && StationMessages(base, o)[j] == m;
      var i := PresentIndices(Fields(o))[j];
      assert Present(Fields(o)[i].value);
    }
  }

  /** A matching station sends as many messages as it has tracked fields with a non-empty normalised value. */
  lemma StationMessageCount(base: string, o: Observation)
    ensures |StationMessages(base, o)| == |set i | 0 <= i < |FieldNames| && Present(Fields(o)[i].value)|
  {
    var idx := PresentIndices(Fields(o));
    StationMessagesSpec(base, o);
    IncreasingCard(idx);
    assert (set i | 0 <= i < |FieldNames| && Present(Fields(o)[i].value)) == Elements(idx);
  }

  /** The topics of one station's messages are pairwise distinct. */
  lemma StationTopicsDistinct(base: string, o: Observation)
    ensures forall j, k :: 0 <= j < k < |StationMessages(base, o)| ==>
      StationMessages(base, o)[j].topic != StationMessages(base, o)[k].topic
  {
    StationMessagesSpec(base, o);
    FieldNamesDistinct();
    var ms := StationMessages(base, o);
    var idx := PresentIndices(Fields(o));
    forall j, k | 0 <= j < k < |ms| ensures ms[j].topic != ms[k].topic {
      assert FieldNames[idx[j]] != FieldNames[idx[k]];
    }
  }

  // ---------------------------------------------------------------------
  // One cycle over the feed
  // ---------------------------------------------------------------------

  /** What station `o` contributes: its messages if its region key is `region`, else nothing. */
  function Contribution(base: string, region: string, o: Observation): (r: seq<Message>)
    ensures RegionKey(o.station.region) != region ==> r == []
    ensures |r| <= |FieldNames|
  {
    if RegionKey(o.station.region) == region then StationMessages(base, o) else []
  }

  /**
   * The messages of one cycle: each station's contribution, in feed order.
   * At most eight messages per station are sent.
   */
  function CycleMessages(base: string, region: string, stations: seq<Observation>): (r: seq<Message>)
    ensures |r| <= |FieldNames| * |stations|
  {
    FlatMapBound(o => Contribution(base, region, o), stations, |FieldNames|);
    FlatMap(o => Contribution(base, region, o), stations)
  }

  /** The whole cycle, including the case where the loop is disabled by missing configuration. */
  function CycleOutput(topic: Option<string>, region: Option<string>, stations: seq<Observation>): (r: seq<Message>)
    ensures topic.None? || region.None? ==> r == []
    ensures |r| <= |FieldNames| * |stations|
  {
    if topic.None? || region.None? then [] else CycleMessages(topic.value, region.value, stations)
  }

  /**
   * One iteration of the outer loop of BuienradarLoop, after the feed has
   * been fetched: a missing topic base or region sends nothing; otherwise
   * every station whose region key is the configured region sends its
   * present fields.
   */
  method BuienradarCycle(topic: Option<string>, region: Option<string>, stations: seq<Observation>)
    returns (sent: seq<Message>)
    ensures topic.None? || region.None? ==> sent == []
    ensures topic.Some? && region.Some? ==> sent == CycleMessages(topic.value, region.value, stations)
  {
    if topic.None? {
      return [];
    }
    if region.None? {
      return [];
    }
    var topicBase, configuredRegion := topic.value, region.value;
    sent := [];
    for n := 0 to |stations|
      invariant sent == CycleMessages(topicBase, configuredRegion, stations[..n])
    {
      var location := stations[n];
      assert stations[..n + 1] == stations[..n] + [location];
      FlatMapSnoc(o => Contribution(topicBase, configuredRegion, o), stations[..n], location);
      var regionName := RegionKey(location.station.region);
      if regionName != configuredRegion {
        continue;
      }
      var tpcs, msgs := BuildFields(topicBase, location);
      var out := SendAll(tpcs, msgs);
      assert out == StationMessages(topicBase, location);
      sent := sent + out;
    }
    assert stations[..|stations|] == stations;
  }

  /** A feed of one station sends that station's contribution. */
  lemma CycleOfOne(base: string, region: string, o: Observation)
    ensures CycleMessages(base, region, [o]) == Contribution(base, region, o)
  {
    FlatMapSnoc(o => Contribution(base, region, o), [], o);
    assert [] + [o] == [o];
  }

  /** Stations keep feed order: the cycle over `a + b` is the cycle over `a` followed by that over `b`. */
  lemma CycleAppend(base: string, region: string, a: seq<Observation>, b: seq<Observation>)
    ensures CycleMessages(base, region, a + b) == CycleMessages(base, region, a) + CycleMessages(base, region, b)
  {
    FlatMapAppend(o => Contribution(base, region, o), a, b);
  }

  /** Every message of a cycle comes from a station of the feed whose region key is the configured region. */
  lemma CycleFromMatching(base: string, region: string, stations: seq<Observation>, m: Message)
    requires m in CycleMessages(base, region, stations)
    ensures exists o :: o in stations && RegionKey(o.station.region) == region && m in StationMessages(base, o)
  {
    FlatMapMember(o => Contribution(base, region, o), stations, m);
    var o :| o in stations && m in Contribution(base, region, o);
  }

  /** A feed with no station of the configured region produces no message. */
  lemma NoMatchNoMessages(base: string, region: string, stations: seq<Observation>)
    requires forall o :: o in stations ==> RegionKey(o.station.region) != region
    ensures CycleMessages(base, region, stations) == []
  {
    if CycleMessages(base, region, stations) != [] {
      CycleFromMatching(base, region, stations, CycleMessages(base, region, stations)[0]);
    }
  }

  /** A configured region with a space or an upper-case ASCII letter makes every cycle empty. */
  lemma UnmatchableRegionNoMessages(base: string, region: string, stations: seq<Observation>)
    requires exists i :: 0 <= i < |region| && (region[i] == ' ' || IsUpperAscii(region[i]))
    ensures CycleMessages(base, region, stations) == []
  {
    forall o | o in stations ensures RegionKey(o.station.region) != region {
      UnmatchableRegion(region, o.station.region);
    }
    NoMatchNoMessages(base, region, stations);
  }

  /**
   * Every message of a cycle has retain off, a payload that is neither empty
   * nor the sentinel, and a topic `base/name` for one of the tracked names.
   */
  lemma CycleMessageShape(base: string, region: string, stations: seq<Observation>, m: Message)
    requires m in CycleMessages(base, region, stations)
    ensures !m.retain && m.payload != "" && m.payload != Sentinel
    ensures exists i :: 0 <= i < |FieldNames| && m.topic == Join(base, FieldNames[i])
  {
    CycleFromMatching(base, region, stations, m);
    var o :| o in stations && RegionKey(o.station.region) == region && m in StationMessages(base, o);
    StationMessagesSpec(base, o);
    var j :| 0 <= j < |StationMessages(base, o)| && StationMessages(base, o)[j] == m;
    var i := PresentIndices(Fields(o))[j];
    assert m.topic == Join(base, FieldNames[i]);
  }
}
