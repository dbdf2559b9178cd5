/**
 * The MQTT client's QoS parsing and its table of subscribed topics
 * (pubsub/mqttclient.go). The table remembers each subscription with its
 * QoS so that a reconnect can subscribe to all of them again; the broker is
 * abstract, and what its Subscribe and Unsubscribe return is a parameter.
 */
module MqttClient {

  import opened Wrappers

  newtype byte = x: int | 0 <= x < 256

  /** MQTTQoS values. */
  const QoSAtMostOnce: byte := 0
  const QoSAtLeastOnce: byte := 1
  const QoSExactlyOnce: byte := 2
  const QoSUnknown: byte := 0xFF

  /** A QoS level by its constant's name or by its number; anything else is unknown. */
  function ParseMQTTQoS(s: string): (q: byte)
    ensures q == QoSAtMostOnce <==> s == "QoSAtMostOnce" || s == "0"
    ensures q == QoSAtLeastOnce <==> s == "QoSAtLeastOnce" || s == "1"
    ensures q == QoSExactlyOnce <==> s == "QoSExactlyOnce" || s == "2"
    ensures q == QoSUnknown <==> s !in {"QoSAtMostOnce", "0", "QoSAtLeastOnce", "1", "QoSExactlyOnce", "2"}
  {
    match s
    case "QoSAtMostOnce" => QoSAtMostOnce
    case "0" => QoSAtMostOnce
    case "QoSAtLeastOnce" => QoSAtLeastOnce
    case "1" => QoSAtLeastOnce
    case "QoSExactlyOnce" => QoSExactlyOnce
    case "2" => QoSExactlyOnce
    case _ => QoSUnknown
  }

  /** The name of a known QoS level's constant. */
  function QoSName(q: byte): string
    requires q <= 2
  {
    if q == 0 then "QoSAtMostOnce" else if q == 1 then "QoSAtLeastOnce" else "QoSExactlyOnce"
  }

  /** A known QoS level's number, as a decimal digit. */
  function QoSDigit(q: byte): string
    requires q <= 2
  {
    [('0' as int + q as int) as char]
  }

  /** Parsing gives back every known level from either spelling, and never gives a level outside the four. */
  lemma ParseRoundTrip(q: byte, s: string)
    requires q <= 2
    ensures ParseMQTTQoS(QoSName(q)) == q
    ensures ParseMQTTQoS(QoSDigit(q)) == q
    ensures ParseMQTTQoS(s) <= 2 || ParseMQTTQoS(s) == QoSUnknown
  {
    if q == 0 {
      assert QoSDigit(q) == "0";
    } else if q == 1 {
      assert QoSDigit(q) == "1";
    } else {
      assert QoSDigit(q) == "2";
    }
  }

  /** The table after a Subscribe whose broker call returned subscribed. */
  function Recorded(topics: map<string, byte>, topic: string, qos: byte, subscribed: Outcome): map<string, byte>
  {
    if subscribed.Ok? then topics[topic := qos] else topics
  }

  /** The table after an Unsubscribe whose broker call returned unsubscribed. */
  function Dropped(topics: map<string, byte>, ts: seq<string>, unsubscribed: Outcome): map<string, byte>
  {
    if unsubscribed.Ok? then map t | t in topics && t !in ts :: topics[t] else topics
  }

  /**
   * A successful Subscribe followed by a successful Unsubscribe of the same
   * topic leaves the table as it was, when the topic was not in it before;
   * a failed call never changes it.
   */
  lemma {:induction false} SubscribeThenUnsubscribe(topics: map<string, byte>, topic: string, qos: byte, sub: Outcome, unsub: Outcome)
    requires topic !in topics
    ensures sub.Ok? && unsub.Ok? ==> Dropped(Recorded(topics, topic, qos, sub), [topic], unsub) == topics
    ensures sub.Err? ==> Recorded(topics, topic, qos, sub) == topics
    ensures unsub.Err? ==> Dropped(topics, [topic], unsub) == topics
  {
    if sub.Ok? && unsub.Ok? {
      var after := Dropped(Recorded(topics, topic, qos, sub), [topic], unsub);
      assert after.Keys == topics.Keys;
    }
  }

  /** Unsubscribing only ever removes the named topics: every other entry stays as it was. */
  lemma DroppedKeepsOthers(topics: map<string, byte>, ts: seq<string>, unsubscribed: Outcome, t: string)
    requires t in topics && t !in ts
    ensures t in Dropped(topics, ts, unsubscribed) && Dropped(topics, ts, unsubscribed)[t] == topics[t]
  {
  }

  class MQTTClient {
    const defaultQoS: byte
    /** The subscribed topics with their QoS, for subscribing again on reconnect. */
    var topics: map<string, byte>

    /** A client whose table starts empty (see SubscribeAsWritten for the source's nil map). */
    constructor (defaultQoS: byte)
      ensures this.defaultQoS == defaultQoS && topics == map[]
    {
      this.defaultQoS := defaultQoS;
      topics := map[];
    }

    /** Subscribes at the default QoS; the topic is recorded only if the broker accepted it. */
    method Subscribe(topic: string, subscribed: Outcome) returns (err: Outcome)
      modifies this`topics
      ensures err == subscribed
      ensures topics == Recorded(old(topics), topic, defaultQoS, subscribed)
    {
      if subscribed.Err? {
        return subscribed;
      }
      topics := topics[topic := defaultQoS];
      return Ok;
    }

    /** Unsubscribes from topics in one broker call; they are deleted, one by one, only if it succeeded. */
    method Unsubscribe(ts: seq<string>, unsubscribed: Outcome) returns (err: Outcome)
      modifies this`topics
      ensures err == unsubscribed
      ensures topics == Dropped(old(topics), ts, unsubscribed)
    {
      if unsubscribed.Err? {
        return unsubscribed;
      }
      for i := 0 to |ts|
        invariant topics == map t | t in old(topics) && t !in ts[..i] :: old(topics)[t]
      {
        assert forall t :: t in ts[..i + 1] <==> t in ts[..i] || t == ts[i];
        topics := topics - {ts[i]};
      }
      assert ts[..|ts|] == ts;
      return Ok;
    }
  }

  /** A Go map value: nil (never made) or made with some entries. */
  datatype GoMap = Nil | Made(entries: map<string, byte>)

  /** How a Subscribe call ends: it returns an error value, or the assignment into a nil map panics. */
  datatype Completion = Returned(err: Outcome) | Panicked

  /** The table the source's constructors leave: neither assigns topics, so it stays nil. */
  function NewClientTopicsAsWritten(): (topics: GoMap)
    ensures topics.Nil?
  {
    Nil
  }

  /** Subscribe as the source writes it, on a table that may be nil. */
  function SubscribeAsWritten(topics: GoMap, topic: string, qos: byte, subscribed: Outcome): (r: (GoMap, Completion))
    ensures r.1 == Panicked <==> subscribed.Ok? && topics.Nil?
    ensures subscribed.Err? ==> r == (topics, Returned(subscribed))
    ensures r.1 != Panicked && subscribed.Ok? ==> r.1 == Returned(Ok) && r.0.Made? && r.0.entries == topics.entries[topic := qos]
  {
    if subscribed.Err? then (topics, Returned(subscribed))
    else match topics
      case Nil => (Nil, Panicked)
      case Made(m) => (Made(m[topic := qos]), Returned(Ok))
  }

  /** On a freshly constructed client, the first Subscribe the broker accepts panics. */
  lemma FirstSubscribePanics(topic: string, qos: byte)
    ensures SubscribeAsWritten(NewClientTopicsAsWritten(), topic, qos, Ok).1 == Panicked
  {
  }

  /** With the table made empty, Subscribe as written behaves as the model's Subscribe. */
  lemma MadeTableAgrees(m: map<string, byte>, topic: string, qos: byte, subscribed: Outcome)
    ensures SubscribeAsWritten(Made(m), topic, qos, subscribed) == (Made(Recorded(m, topic, qos, subscribed)), Returned(subscribed))
  {
  }
}
