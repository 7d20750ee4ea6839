/**
 * The record handed from the observation loop to the message loop
 * (`MqttCronMessage`), and the `"%s/%s"` topic join both loops use.
 */
module Messages {

  /** One outbound message: a topic, its raw textual payload and the retain flag. */
  datatype Message = Message(topic: string, payload: string, retain: bool)

  /** `fmt.Sprintf("%s/%s", a, b)`: the two parts with one '/' between them. */
  function Join(a: string, b: string): (r: string)
    ensures |r| == |a| + 1 + |b|
    ensures r[..|a|] == a && r[|a|] == '/' && r[|a| + 1..] == b
  {
    a + "/" + b
  }

  /** Under a fixed base, the joined topic determines the suffix. */
  lemma JoinInjective(base: string, x: string, y: string)
    requires Join(base, x) == Join(base, y)
    ensures x == y
  {
  }

  /** Joining is associative, so `p/(b/n)` is the same string as `(p/b)/n`. */
  lemma JoinAssociative(p: string, b: string, n: string)
    ensures Join(p, Join(b, n)) == Join(Join(p, b), n)
  {
  }
}
