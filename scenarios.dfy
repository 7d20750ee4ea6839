/** Two concrete cycles: a matching station with one present field, and a station of another region. */
module Scenarios {
  import opened Messages
  import opened Buienradar
  import opened Publisher

  /** A station whose only available value is the humidity. */
  function OnlyHumidity(region: string, humidity: string): Observation {
    Observation("6344", StationData(region, "Meetstation Rotterdam"), "51.96", "4.45",
                humidity, "-", "-", "-", "-", "-", "-", "-")
  }

  /** A matching station whose only available value is humidity "77" sends one message, to `base/humidity`. */
  lemma MatchingStationSendsHumidity(base: string, region: string, stationRegion: string)
    requires RegionKey(stationRegion) == region
    ensures CycleMessages(base, region, [OnlyHumidity(stationRegion, "77")])
         == [Message(Join(base, "humidity"), "77", false)]
  {
    var o := OnlyHumidity(stationRegion, "77");
    CycleOfOne(base, region, o);
    PresentFieldsOfStation(o);
    assert PresentFields(Fields(o)) == [Field("humidity", "77")];
  }

  /**
   * The feed's region "Zuid-Holland", and "Zuid Holland" spelled with a
   * space, both have the key "zuid-holland".
   */
  lemma ZuidHollandKey(sep: char)
    requires sep == '-' || sep == ' '
    ensures RegionKey("Zuid" + [sep] + "Holland") == "zuid-holland"
  {
  }

  /**
   * Configured for "zuid-holland", a "Zuid-Holland" (or "Zuid Holland")
   * station whose only available value is humidity "77" is published once,
   * to `prefix/base/humidity`.
   */
  lemma ZuidHollandStationPublishesHumidity(prefix: string, base: string, sep: char)
    requires sep == '-' || sep == ' '
    ensures CycleMessages(base, "zuid-holland", [OnlyHumidity("Zuid" + [sep] + "Holland", "77")])
         == [Message(Join(base, "humidity"), "77", false)]
    ensures ToPublication(prefix, Message(Join(base, "humidity"), "77", false))
         == Publication(prefix + "/" + base + "/humidity", 0, false, "77")
  {
    ZuidHollandKey(sep);
    MatchingStationSendsHumidity(base, "zuid-holland", "Zuid" + [sep] + "Holland");
  }

  /** Configured for "zuid-holland", a "Friesland" station sends nothing. */
  lemma OtherRegionSendsNothing(base: string)
    ensures CycleMessages(base, "zuid-holland", [OnlyHumidity("Friesland", "77")]) == []
  {
  }
}
