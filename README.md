# buienradar-mqtt in Dafny

A verified model of the transform at the heart of `buienradar-mqtt`, a small
bridge that polls the buienradar.nl XML weather feed and republishes the
measurements of one region on an MQTT broker. Every polling cycle works in
four steps:

1. Each station's region is turned into its region key: lower-casing, then
   every space replaced by `-`. Only stations whose key equals the configured
   region (`BUIENRADAR_REGION`) are kept.
2. The eight tracked fields of a kept station are checked in a fixed order:
   humidity, temperature.ground, temperature.10cm, wind, gust, pressure,
   rain, sight. The feed writes `-` for "not available". A field whose value,
   with `-` mapped to the empty string, is non-empty adds the topic
   `MQTT_TOPIC/name` and its raw value to two parallel lists.
3. One message per list index is handed to the message loop, with retain off.
4. The message loop publishes each message under `MQTT_PREFIX/topic`.
   `MQTT_PREFIX` defaults to `/home.arpa`.

The model covers one cycle. The parsed feed is an input sequence of
observations. The messages handed over the channel are an output sequence.
The broker's acknowledgements are a parameter.

Files:

- `wrappers.dfy`: `Option`, which stands for a configuration variable that may be unset.
- `text.dfy`: ASCII lower-casing and single-character replacement.
- `messages.dfy`: the `MqttCronMessage` record and the `"%s/%s"` topic join.
- `seqs.dfy`: a left fold that concatenates a function's results over a sequence, with its lemmas.
- `buienradar.dfy`: the station records, sentinel normalisation, region key,
  the eight-field builder, the send loop and one cycle of `BuienradarLoop`, and what they guarantee.
- `publisher.dfy`: the prefix default, `MessageLoop`, and one cycle end to end.
- `scenarios.dfy`: concrete cycles: a matching station, a `Zuid-Holland` station published end to end, and one from another region.

The imperative parts are methods. `BuildFields` grows `tpcs` and `msgs`
together through eight checks. `SendAll` walks the indices. `BuienradarCycle`
walks the stations and `MessageLoop` walks the messages. Each method is proved
against a specification function: `StationMessages`, `CycleMessages` and
`ToPublication`. Lemmas then prove what the source promises about those
functions.

`BuienradarAPINormalizeValue` (buienradar-mqtt.go:124-130) maps `-` to the
empty string and leaves an empty input empty. A field missing from the XML
is therefore treated like a `-` field, and `Normalize` states exactly this.

The records are datatypes: `Messages.Message` is `MqttCronMessage`
(buienradar-mqtt.go:58-62), and `Buienradar.StationData` and
`Buienradar.Observation` are `BuienradarAPIStationData` and
`BuienradarAPIData` (buienradar-mqtt.go:64-82), one field per XML element.

## Model

| member | source | states |
|---|---|---|
| `Messages.Message` | buienradar-mqtt.go:58-62 | A message handed from the observation loop to the message loop: topic, payload and retain flag. |
| `Buienradar.StationData` | buienradar-mqtt.go:64-67 | A station's region and name. |
| `Buienradar.Observation` | buienradar-mqtt.go:69-82 | One station's entry in the feed: code, station, position and the eight observed values, each a raw string. |
| `Buienradar.Normalize` | buienradar-mqtt.go:124-130 | The result is empty exactly when the input is `-` or empty. Otherwise the result is the input. It is never `-`. |
| `Buienradar.PresentIff` | buienradar-mqtt.go:183 | A field counts as present exactly when its raw value is neither empty nor `-`. |
| `Text.ToLower` | buienradar-mqtt.go:177 | Keeps the length. Each character is lower-cased on its own (ASCII). |
| `Text.ReplaceChar` | buienradar-mqtt.go:177 | Keeps the length. Every occurrence of one character becomes the other, and nothing else changes. |
| `Text.LowerChar` | buienradar-mqtt.go:177 | The result is never an upper-case ASCII letter. `A`..`Z` map to `a`..`z`, and every other character is unchanged. |
| `Buienradar.RegionKey` | buienradar-mqtt.go:177 | Keeps the length. A space becomes `-`, every other character is lower-cased, and the key has no space and no upper-case ASCII letter. |
| `Buienradar.RegionKeyIdempotent` | buienradar-mqtt.go:177 | Taking the key of a key changes nothing. |
| `Buienradar.UnmatchableRegion` | buienradar-mqtt.go:177-179 | A configured region with a space or an upper-case ASCII letter is never equal to a station's key. |
| `Buienradar.Fields` | buienradar-mqtt.go:183-221 | A station has exactly eight tracked fields, named in the fixed order humidity, temperature.ground, temperature.10cm, wind, gust, pressure, rain, sight. |
| `Buienradar.PresentFields` | buienradar-mqtt.go:183-221 | The eight checks as a filter: it keeps at most as many fields as it is given. `PresentIndicesSpec` characterises which ones. |
| `Buienradar.FieldNamesDistinct` | buienradar-mqtt.go:184-219 | The eight topic suffixes are pairwise distinct. |
| `Buienradar.PresentIndicesSelect` | buienradar-mqtt.go:183-221 | The j-th present field is the field at the j-th present position. |
| `Buienradar.PresentIndicesExact` | buienradar-mqtt.go:183-221 | The present positions increase, and a position is listed exactly when its value is present. |
| `Buienradar.PresentIndicesSpec` | buienradar-mqtt.go:183-221 | The present fields are exactly the fields with a present value, each once, in field order. |
| `Buienradar.PresentFieldsSnoc` | buienradar-mqtt.go:183-186 | Checking one more field appends it exactly when its value is present. |
| `Buienradar.PresentFieldsOfStation` | buienradar-mqtt.go:183-221 | The present fields of a station are the eight checks in sequence, each adding its field or nothing. |
| `Buienradar.AppendIfPresent` | buienradar-mqtt.go:183-186 | One check keeps `tpcs` and `msgs` index-aligned. It adds the field's topic `base/name` and its raw payload exactly when the normalised value is non-empty. |
| `Buienradar.BuildFields` | buienradar-mqtt.go:174-175 | `tpcs` and `msgs` have equal length. Entry i of each is the topic and the raw value of the i-th present field. |
| `Buienradar.SendAll` | buienradar-mqtt.go:223-225 | One message per index of `msgs`, in index order. Each pairs `tpcs[i]` with `msgs[i]` and has retain off. |
| `Buienradar.StationMessagesSpec` | buienradar-mqtt.go:183-225 | A matching station sends at most 8 messages. Message j carries the topic `base/name` and the raw value of the same field, and that field is present. The fields come in field order, every present field is sent, and retain is off. No payload is empty or `-`. |
| `Buienradar.StationMessages` | buienradar-mqtt.go:183-225 | A matching station sends at most eight messages, all with retain off. |
| `Buienradar.StationMessageCount` | buienradar-mqtt.go:183-221 | A matching station sends as many messages as it has tracked fields with a non-empty normalised value. |
| `Buienradar.StationTopicsDistinct` | buienradar-mqtt.go:183-221 | The topics of one station's messages are pairwise distinct. |
| `Buienradar.Contribution` | buienradar-mqtt.go:177-181 | A station whose region key differs from the configured region contributes nothing, and any station at most eight messages. |
| `Buienradar.CycleMessages` | buienradar-mqtt.go:173-226 | A cycle over the feed sends at most eight messages per feed station. |
| `Buienradar.CycleOutput` | buienradar-mqtt.go:159-170 | With the topic base or the region unset the cycle sends nothing; in every case at most eight messages per station. |
| `Buienradar.BuienradarCycle` | buienradar-mqtt.go:159-226 | If the topic base or the region is unset, nothing is sent. Otherwise the sent messages are exactly those of the cycle specification: each station's messages if its key matches, nothing if not, stations in feed order. |
| `Buienradar.CycleOfOne` | buienradar-mqtt.go:177-181 | A one-station feed sends that station's messages if its key is the configured region, and nothing otherwise. |
| `Buienradar.CycleAppend` | buienradar-mqtt.go:173 | Stations keep feed order. The cycle over `a + b` sends the messages of `a`, then those of `b`. |
| `Buienradar.CycleFromMatching` | buienradar-mqtt.go:177-181 | Every message of a cycle belongs to a feed station whose key is the configured region. |
| `Buienradar.NoMatchNoMessages` | buienradar-mqtt.go:179-181 | A feed with no station of the configured region sends nothing. |
| `Buienradar.UnmatchableRegionNoMessages` | buienradar-mqtt.go:177-181 | A configured region with a space or an upper-case ASCII letter makes every cycle send nothing. |
| `Buienradar.CycleMessageShape` | buienradar-mqtt.go:183-225 | Every message of a cycle has retain off, a payload that is neither empty nor `-`, and the topic `base/name` for one of the eight names. |
| `Messages.Join` | buienradar-mqtt.go:112 | The result is the first part, one `/`, then the second part. |
| `Messages.JoinInjective` | buienradar-mqtt.go:184 | Under a fixed base, the joined topic determines the field name. |
| `Messages.JoinAssociative` | buienradar-mqtt.go:112 | `prefix/(base/name)` is the same string as `(prefix/base)/name`. |
| `Publisher.ResolvePrefix` | buienradar-mqtt.go:241-248 | The prefix is `MQTT_PREFIX` when set and `/home.arpa` when unset. |
| `Publisher.ToPublication` | buienradar-mqtt.go:112-114 | The publish request has topic `prefix/topic`, QoS 0, the message's retain flag and its payload. |
| `Publisher.MessageLoop` | buienradar-mqtt.go:110-120 | Messages are published in channel order, each under `prefix/topic`, until the first rejection. A rejection ends the loop fatally at that index. If every publish is accepted, all messages are published. |
| `Publisher.WireFormat` | buienradar-mqtt.go:112 | Every request for a cycle's message has QoS 0 and retain off. Its payload is present and its topic is `prefix/base/name`, with `name` one of the eight names. |
| `Publisher.RunCycle` | buienradar-mqtt.go:241-261 | One cycle end to end. The cycle's messages are published in the order sent, under the resolved prefix, and every one published was accepted. A rejection ends the run at its index; if every publish is accepted, all are published. With the topic base or region unset, nothing is published. |
| `Scenarios.MatchingStationSendsHumidity` | buienradar-mqtt.go:177-225 | A matching station whose only available value is humidity `77` sends exactly one message: topic `base/humidity`, payload `77`, retain off. |
| `Scenarios.ZuidHollandKey` | buienradar-mqtt.go:177 | The feed region `Zuid-Holland`, and `Zuid Holland` with a space, both have the key `zuid-holland`. |
| `Scenarios.ZuidHollandStationPublishesHumidity` | buienradar-mqtt.go:177-225 | Configured for `zuid-holland`, a `Zuid-Holland` station whose only available value is humidity `77` sends one message, published as topic `prefix/base/humidity`, QoS 0, retain off, payload `77`. |
| `Scenarios.OtherRegionSendsNothing` | buienradar-mqtt.go:177-181 | A `Friesland` station sends nothing when the configured region is `zuid-holland`. |
| `Seqs.FlatMapAppend` | buienradar-mqtt.go:173 | Concatenating per-station results over `a + b` gives the results over `a`, then those over `b`. |
| `Seqs.IncreasingCard` | buienradar-mqtt.go:183-221 | A strictly increasing sequence of positions has as many distinct elements as it is long. |

## Left out

- Fetching the feed over HTTP, reading the body and decoding the XML (`BuienradarAPICall`). These are network I/O and library calls. The parsed station list is an input, and the fatal exits on these errors are not modelled.
- The MQTT client: connecting, the client options, `Disconnect` and the final sleep. Publishing is a parameter `accept`, which gives the broker's answer to the i-th publish.
- The goroutine and the unbuffered channel between `BuienradarLoop` and `MessageLoop`. The model hands the cycle's messages over as a sequence, in first-in first-out order. It does not model concurrency, blocking or back-pressure.
- The five-minute sleep and the endless outer loop. One cycle is modelled, and later cycles repeat it on a new feed.
- Reading environment variables, and all logging. `MQTT_TOPIC`, `BUIENRADAR_REGION` and `MQTT_PREFIX` are `Option<string>` parameters. The fatal exit when `MQTT_HOST` is unset is not modelled.
- The `DayLightAPIData` and `DayLightAPIResult` records. The core never uses them.
- The station code, name, latitude and longitude. They are carried in `Observation` but never published.
- Text.ToLower: lower-cases ASCII letters only. Go's `strings.ToLower` also lower-cases non-ASCII letters (for example `É`), which this model leaves unchanged. Go works on UTF-8 bytes, and this model works on Dafny characters.
- Text.ReplaceChar: models `strings.Replace(s, " ", "-", -1)` only, where a single character replaces a single character. The general substring replacement of `strings.Replace` is not modelled.
- Publisher.MessageLoop: a message counts as published once the broker accepts it. A rejection ends the loop, standing for the process exit. The log line after each publish is not modelled.
