/**
 * The publishing side: the prefix chosen at start-up, the final topic join
 * of MessageLoop, and the loop that publishes the messages of a cycle one
 * by one until every message of the cycle is published or the broker
 * rejects one.
 *
 * The broker is a parameter: `accept(i)` is its answer to the i-th publish.
 */
module Publisher {
  import opened Wrappers
  import opened Messages
  import opened Buienradar

  /** The prefix used when `MQTT_PREFIX` is unset. */
  const DefaultPrefix: string := "/home.arpa"

  /** The prefix main hands to the message loop: the configured one, else the default. */
  function ResolvePrefix(configured: Option<string>): (p: string)
    ensures configured.Some? ==> p == configured.value
    ensures configured.None? ==> p == DefaultPrefix
  {
    configured.GetOr(DefaultPrefix)
  }

  /** One publish request: the topic, the quality of service, the retain flag and the payload. */
  datatype Publication = Publication(topic: string, qos: nat, retain: bool, payload: string)

  /** The request MessageLoop makes for message `m`: topic `prefix/m.topic`, QoS 0. */
  function ToPublication(prefix: string, m: Message): (p: Publication)
    ensures |p.topic| == |prefix| + 1 + |m.topic|
    ensures p.topic[..|prefix|] == prefix && p.topic[|prefix|] == '/' && p.topic[|prefix| + 1..] == m.topic
    ensures p.qos == 0 && p.retain == m.retain && p.payload == m.payload
  {
    Publication(Join(prefix, m.topic), 0, m.retain, m.payload)
  }

  /**
   * How the messages of one cycle end: `Drained` when every one of them was
   * published (the real loop then waits for the next cycle's messages, as
   * its channel is never closed), or `PublishFailed` when publish `index`
   * was rejected, which ends the program.
   */
  datatype LoopEnd = Drained | PublishFailed(index: nat)

  /**
   * Publishes `msgs` in order. The publications acknowledged are the first
   * ones, in channel order; the loop stops at the first rejection, which
   * is fatal, and otherwise publishes every message of the cycle.
   */
  method MessageLoop(prefix: string, msgs: seq<Message>, accept: nat -> bool)
    returns (published: seq<Publication>, end: LoopEnd)
    ensures |published| <= |msgs|
    ensures forall i :: 0 <= i < |published| ==> published[i] == ToPublication(prefix, msgs[i]) && accept(i)
    ensures end == Drained <==> |published| == |msgs|
    ensures end.PublishFailed? ==> end.index == |published| && !accept(end.index)
    ensures (forall i :: 0 <= i < |msgs| ==> accept(i)) ==> end == Drained
  {
    published := [];
    for i := 0 to |msgs|
      invariant |published| == i
      invariant forall k :: 0 <= k < i ==> published[k] == ToPublication(prefix, msgs[k]) && accept(k)
    {
      var p := ToPublication(prefix, msgs[i]);
      if !accept(i) {
        return published, PublishFailed(i);
      }
      published := published + [p];
    }
    end := Drained;
  }

  /**
   * The wire format: every request made for a cycle's message has QoS 0,
   * retain off, a present payload and the topic `prefix/base/name` for a
   * tracked field name, where the prefix is `MQTT_PREFIX` or the default.
   */
  lemma WireFormat(configuredPrefix: Option<string>, base: string, region: string,
                   stations: seq<Observation>, m: Message)
    requires m in CycleMessages(base, region, stations)
    ensures ToPublication(ResolvePrefix(configuredPrefix), m).qos == 0
    ensures !ToPublication(ResolvePrefix(configuredPrefix), m).retain
    ensures Present(ToPublication(ResolvePrefix(configuredPrefix), m).payload)
    ensures exists i :: 0 <= i < |FieldNames| &&
             ToPublication(ResolvePrefix(configuredPrefix), m).topic ==
             Join(Join(ResolvePrefix(configuredPrefix), base), FieldNames[i])
  {
    var prefix := ResolvePrefix(configuredPrefix);
    CycleMessageShape(base, region, stations, m);
    var i :| 0 <= i < |FieldNames| && m.topic == Join(base, FieldNames[i]);
    JoinAssociative(prefix, base, FieldNames[i]);
  }

  /**
   * One cycle end to end, with the channel as a first-in first-out queue:
   * the observation loop's messages of the cycle are published in the
   * order sent, under the resolved prefix, up to the first rejection.
   */
  method RunCycle(configuredPrefix: Option<string>, topic: Option<string>, region: Option<string>,
                  stations: seq<Observation>, accept: nat -> bool)
    returns (published: seq<Publication>, end: LoopEnd)
    ensures |published| <= |CycleOutput(topic, region, stations)|
    ensures forall i :: 0 <= i < |published| ==>
      published[i] == ToPublication(ResolvePrefix(configuredPrefix), CycleOutput(topic, region, stations)[i]) && accept(i)
    ensures end == Drained <==> |published| == |CycleOutput(topic, region, stations)|
    ensures end.PublishFailed? ==> end.index == |published| && !accept(end.index)
    ensures (forall i :: 0 <= i < |CycleOutput(topic, region, stations)| ==> accept(i)) ==> end == Drained
    ensures topic.None? || region.None? ==> published == [] && end == Drained
  {
    var prefix := ResolvePrefix(configuredPrefix);
    var sent := BuienradarCycle(topic, region, stations);
    published, end := MessageLoop(prefix, sent, accept);
  }
}
