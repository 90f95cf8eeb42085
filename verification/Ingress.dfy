/** Event ingress: one message per received event (cmd/hmcollector/rest.go, `parseRequest`) and its
    delivery to the brokers (cmd/hmcollector/kafka.go, `writeToKafka`). */
module Ingress {
  import opened Basics
  import opened Events
  import opened EventDecoding
  import opened Identity
  import opened Routing

  /** A single-event message for Kafka. */
  datatype Message = Message(topic: string, key: string, envelope: Envelope, event: Event)

  // ================================================ one message per event

  /** The local time when sensor `j` of event `i` is reached; None keeps the provided timestamps. */
  type Clock = Option<(nat, nat) -> string>

  function MarkInvalid(s: Sensor): Sensor {
    if s.physicalContext == "" then s.(physicalContext := "INVALID") else s
  }

  function Stamp(s: Sensor, i: nat, j: nat, now: Clock): Sensor {
    if now.Some? then s.(timestamp := now.value(i, j)) else s
  }

  function FixedSensors(ss: seq<Sensor>, i: nat, now: Clock): (r: seq<Sensor>)
    ensures |r| == |ss| && forall j | 0 <= j < |ss| :: r[j] == MarkInvalid(Stamp(ss[j], i, j, now))
  {
    seq(|ss|, j requires 0 <= j < |ss| => MarkInvalid(Stamp(ss[j], i, j, now)))
  }

  /** Event number `i` of a request as published. */
  function Published(e: Event, i: nat, now: Clock): Event {
    if e.oem.None? then e else e.(oem := Some(FixedSensors(e.oem.value, i, now)))
  }

  /** With the timestamp override on, an event without the Cray part dereferences a nil pointer. */
  predicate Crashes(e: Event, now: Clock) {
    now.Some? && e.oem.None?
  }

  /** How a message ID is mapped to a topic, if it is. */
  type Route = string -> Option<string>

  function MessageOf(topic: string, env: Envelope, e: Event, i: nat, now: Clock): Message {
    Message(topic, KafkaKey(env.context, e.messageId), env, Published(e, i, now))
  }

  function Messages(route: Route, env: Envelope, e: Event, i: nat, now: Clock): seq<Message> {
    var t := route(e.messageId);
    if t.None? then [] else [MessageOf(t.value, env, e, i, now)]
  }

  /** Everything published for the events from position `from` on, up to a crash. */
  function FanOut(route: Route, env: Envelope, es: seq<Event>, from: nat, now: Clock): seq<Message>
    requires from <= |es|
    decreases |es| - from
  {
    if from == |es| || Crashes(es[from], now) then []
    else Messages(route, env, es[from], from, now) + FanOut(route, env, es, from + 1, now)
  }

  function Restored(env: Envelope, path: string): Envelope {
    env.(context := EventContext(env.context, path))
  }

  /** The two loops over the sensors: first the timestamps, then the physical contexts. */
  method FixSensors(ss: seq<Sensor>, i: nat, now: Clock) returns (r: seq<Sensor>)
    ensures r == FixedSensors(ss, i, now)
  {
    r := ss;
    if now.Some? {
      for j := 0 to |r|
        invariant |r| == |ss|
        invariant forall k | 0 <= k < j :: r[k] == Stamp(ss[k], i, k, now)
        invariant forall k | j <= k < |r| :: r[k] == ss[k]
      {
        r := r[j := r[j].(timestamp := now.value(i, j))];
      }
    }
    ghost var mid := r;
    for j := 0 to |r|
      invariant |r| == |ss| == |mid|
      invariant forall k | 0 <= k < j :: r[k] == MarkInvalid(mid[k])
      invariant forall k | j <= k < |r| :: r[k] == mid[k]
    {
      if r[j].physicalContext == "" {
        r := r[j := r[j].(physicalContext := "INVALID")];
      }
    }
  }

  method PublishEvent(route: Route, env: Envelope, e: Event, i: nat, now: Clock) returns (out: seq<Message>)
    requires !Crashes(e, now)
    ensures out == Messages(route, env, e, i, now)
  {
    var e' := e;
    if e.oem.Some? {
      var ss := FixSensors(e.oem.value, i, now);
      e' := e.(oem := Some(ss));
    }
    out := [];
    var topic := route(e.messageId);
    if topic.Some? {
      out := [Message(topic.value, KafkaKey(env.context, e.messageId), env, e')];
    }
  }

  /** The loop of `parseRequest`: the messages handed to Kafka, and whether the handler crashed. */
  method PublishAll(route: Route, env: Envelope, es: seq<Event>, now: Clock) returns (out: seq<Message>, crashed: bool)
    ensures out == FanOut(route, env, es, 0, now)
    ensures crashed <==> exists k | 0 <= k < |es| :: Crashes(es[k], now)
  {
    out, crashed := [], false;
    ghost var all := FanOut(route, env, es, 0, now);
    for i := 0 to |es|
      invariant !crashed && forall k | 0 <= k < i :: !Crashes(es[k], now)
      invariant out + FanOut(route, env, es, i, now) == all
    {
      if Crashes(es[i], now) {
        assert out + [] == out;
        return out, true;
      }
      var ms := PublishEvent(route, env, es[i], i, now);
      assert out + (ms + FanOut(route, env, es, i + 1, now)) == out + ms + FanOut(route, env, es, i + 1, now);
      out := out + ms;
    }
    assert out + [] == out;
  }

  /** `parseRequest` after decoding. */
  method ParseRequest(env: Envelope, path: string, es: seq<Event>, now: Clock) returns (out: seq<Message>, crashed: bool)
    ensures out == FanOut(Topic, Restored(env, path), es, 0, now)
    ensures crashed <==> exists k | 0 <= k < |es| :: Crashes(es[k], now)
  {
    var env' := env;
    if env.context == "" {
      env' := env.(context := PathBase(path));
    }
    out, crashed := PublishAll(Topic, env', es, now);
  }

  /** The positions of the events that have a topic. */
  function Routable(route: Route, es: seq<Event>, from: nat): seq<nat>
    requires from <= |es|
    decreases |es| - from
  {
    if from == |es| then []
    else (if route(es[from].messageId).Some? then [from] else []) + Routable(route, es, from + 1)
  }

  lemma {:induction false} RoutableMembers(route: Route, es: seq<Event>, from: nat)
    requires from <= |es|
    ensures forall k :: k in Routable(route, es, from) <==> from <= k < |es| && route(es[k].messageId).Some?
    decreases |es| - from
  {
    if from == |es| {
    } else {
      RoutableMembers(route, es, from + 1);
    }
  }

  lemma IncreasingCons(k: nat, ks: seq<nat>)
    requires (forall i, j | 0 <= i < j < |ks| :: ks[i] < ks[j]) && forall x | x in ks :: k < x
    ensures var all := [k] + ks; forall i, j | 0 <= i < j < |all| :: all[i] < all[j]
  {
    assert forall j | 0 <= j < |ks| :: ks[j] in ks;
  }

  /** They are all of them, in increasing order. */
  lemma {:induction false} RoutableIsComplete(route: Route, es: seq<Event>, from: nat)
    requires from <= |es|
    ensures var ks := Routable(route, es, from);
            && (forall k :: k in ks <==> from <= k < |es| && route(es[k].messageId).Some?)
            && (forall i, j | 0 <= i < j < |ks| :: ks[i] < ks[j])
    decreases |es| - from
  {
    RoutableMembers(route, es, from);
    if from == |es| {
    } else {
      RoutableIsComplete(route, es, from + 1);
      var rest := Routable(route, es, from + 1);
      if route(es[from].messageId).Some? {
        IncreasingCons(from, rest);
      } else {
        assert [] + rest == rest;
      }
    }
  }

  /** Sensors as published: their own local time if provided timestamps are ignored, blank contexts marked, the
      rest untouched. */
  predicate SensorsCarried(ss: seq<Sensor>, i: nat, now: Clock, ss': seq<Sensor>) {
    && |ss'| == |ss|
    && forall j | 0 <= j < |ss| ::
         && ss'[j].data == ss[j].data
         && ss'[j].physicalContext == (if ss[j].physicalContext == "" then "INVALID" else ss[j].physicalContext)
         && ss'[j].timestamp == (if now.Some? then now.value(i, j) else ss[j].timestamp)
  }

  /** Event number `i` as published. */
  predicate Carried(e: Event, i: nat, now: Clock, e': Event) {
    && e'.messageId == e.messageId && e'.origin == e.origin && e'.data == e.data
    && (e.oem.None? <==> e'.oem.None?)
    && (e.oem.Some? ==> SensorsCarried(e.oem.value, i, now, e'.oem.value))
  }

  /** A message carries one event in the envelope, under the context and message ID as key. */
  predicate CarriesEvent(m: Message, env: Envelope, e: Event, i: nat, now: Clock) {
    m.key == env.context + "." + e.messageId && m.envelope == env && Carried(e, i, now, m.event)
  }

  lemma MessageCarries(topic: string, env: Envelope, e: Event, i: nat, now: Clock)
    ensures var m := MessageOf(topic, env, e, i, now); m.topic == topic && CarriesEvent(m, env, e, i, now)
  {
  }

  /** Message by message the publication of the events at the positions `ks`. */
  predicate Matches(route: Route, env: Envelope, es: seq<Event>, now: Clock, out: seq<Message>, ks: seq<nat>) {
    |out| == |ks| &&
    forall j | 0 <= j < |ks| ::
      ks[j] < |es| && route(es[ks[j]].messageId) == Some(out[j].topic) && CarriesEvent(out[j], env, es[ks[j]], ks[j], now)
  }

  lemma MatchesCons(route: Route, env: Envelope, es: seq<Event>, now: Clock, m: Message, k: nat, out: seq<Message>, ks: seq<nat>)
    requires Matches(route, env, es, now, out, ks) && k < |es|
    requires route(es[k].messageId) == Some(m.topic) && CarriesEvent(m, env, es[k], k, now)
    ensures Matches(route, env, es, now, [m] + out, [k] + ks)
  {
  }

  /** Conservation: unless an event crashes the handler, each event with a topic becomes exactly one
      message, in order, in the same envelope; only telemetry of unknown type is dropped. */
  lemma {:induction false} FanOutConserves(route: Route, env: Envelope, es: seq<Event>, from: nat, now: Clock)
    requires from <= |es| && forall k | from <= k < |es| :: !Crashes(es[k], now)
    ensures Matches(route, env, es, now, FanOut(route, env, es, from, now), Routable(route, es, from))
    decreases |es| - from
  {
    if from == |es| {
    } else {
      FanOutConserves(route, env, es, from + 1, now);
      var out, ks := FanOut(route, env, es, from + 1, now), Routable(route, es, from + 1);
      var t := route(es[from].messageId);
      if t.Some? {
        MessageCarries(t.value, env, es[from], from, now);
        MatchesCons(route, env, es, now, MessageOf(t.value, env, es[from], from, now), from, out, ks);
      } else {
        assert [] + ks == ks && [] + out == out;
      }
    }
  }

  /** Without the timestamp override nothing crashes and a published event differs from the received one
      only in blank physical contexts. */
  lemma PlainEventsSurvive(e: Event, i: nat)
    ensures !Crashes(e, None)
    ensures (e.oem.Some? ==> forall s | s in e.oem.value :: s.physicalContext != "") ==> Published(e, i, None) == e
  {
    if e.oem.Some? && forall s | s in e.oem.value :: s.physicalContext != "" {
      assert Published(e, i, None).oem.value == e.oem.value;
    }
  }

  /** With the override on, an event loses its message to a crash exactly when it or an earlier
      event has no Cray part: what is published is what the events before the first such one give. */
  lemma {:induction false} OverrideLosesTail(route: Route, env: Envelope, es: seq<Event>, from: nat, now: Clock, k: nat)
    requires now.Some? && from <= k <= |es|
    requires (forall j | from <= j < k :: es[j].oem.Some?) && (k < |es| ==> es[k].oem.None?)
    ensures FanOut(route, env, es, from, now) == FanOut(route, env, es[..k], from, now)
    decreases k - from
  {
    if from == k {
    } else {
      OverrideLosesTail(route, env, es, from + 1, now, k);
    }
  }

  // ================================================ delivery

  /** A broker and the topics configured for it. */
  datatype Broker = Broker(address: string, topics: set<string>)

  /** A message produced to the broker at an index of the broker list. */
  datatype Delivery = Delivery(broker: nat, message: Message)

  function ToBrokers(brokers: seq<Broker>, from: nat, m: Message): seq<Delivery>
    requires from <= |brokers|
    decreases |brokers| - from
  {
    if from == |brokers| then []
    else (if m.topic in brokers[from].topics then [Delivery(from, m)] else []) + ToBrokers(brokers, from + 1, m)
  }

  method WriteToKafka(brokers: seq<Broker>, m: Message) returns (log: seq<Delivery>)
    ensures log == ToBrokers(brokers, 0, m)
  {
    log := [];
    for i := 0 to |brokers|
      invariant log + ToBrokers(brokers, i, m) == ToBrokers(brokers, 0, m)
    {
      if m.topic in brokers[i].topics {
        log := log + [Delivery(i, m)];
      }
    }
  }

  function DeliverAll(brokers: seq<Broker>, ms: seq<Message>): seq<Delivery> {
    if ms == [] then [] else ToBrokers(brokers, 0, ms[0]) + DeliverAll(brokers, ms[1..])
  }

  /** What one broker receives. */
  function Received(log: seq<Delivery>, b: nat): seq<Message> {
    if log == [] then []
    else (if log[0].broker == b then [log[0].message] else []) + Received(log[1..], b)
  }

  /** The messages on the topics of a broker. */
  function Wanted(ms: seq<Message>, topics: set<string>): seq<Message> {
    if ms == [] then []
    else (if ms[0].topic in topics then [ms[0]] else []) + Wanted(ms[1..], topics)
  }

  lemma {:induction false} ReceivedAppend(x: seq<Delivery>, y: seq<Delivery>, b: nat)
    ensures Received(x + y, b) == Received(x, b) + Received(y, b)
  {
    if x == [] {
      assert x + y == y;
    } else {
      ReceivedAppend(x[1..], y, b);
      assert (x + y)[0] == x[0] && (x + y)[1..] == x[1..] + y;
      var h := if x[0].broker == b then [x[0].message] else [];
      assert h + Received(x[1..], b) + Received(y, b) == h + (Received(x[1..], b) + Received(y, b));
    }
  }

  lemma {:induction false} OneDelivery(brokers: seq<Broker>, from: nat, m: Message, b: nat)
    requires from <= |brokers| && b < |brokers|
    ensures Received(ToBrokers(brokers, from, m), b) == if from <= b && m.topic in brokers[b].topics then [m] else []
    decreases |brokers| - from
  {
    if from == |brokers| {
    } else {
      var rest := ToBrokers(brokers, from + 1, m);
      OneDelivery(brokers, from + 1, m, b);
      if m.topic in brokers[from].topics {
        var all := [Delivery(from, m)] + rest;
        assert all[0] == Delivery(from, m) && all[1..] == rest;
      } else {
        assert [] + rest == rest;
      }
    }
  }

  /** Every broker receives exactly the messages on its topics, each once and in order. */
  lemma {:induction false} BrokersReceiveTheirTopics(brokers: seq<Broker>, ms: seq<Message>, b: nat)
    requires b < |brokers|
    ensures Received(DeliverAll(brokers, ms), b) == Wanted(ms, brokers[b].topics)
  {
    if ms == [] {
    } else {
      BrokersReceiveTheirTopics(brokers, ms[1..], b);
      ReceivedAppend(ToBrokers(brokers, 0, ms[0]), DeliverAll(brokers, ms[1..]), b);
      OneDelivery(brokers, 0, ms[0], b);
    }
  }

  // ================================================ the whole path

  datatype Response = BadRequest | Handled(out: seq<Message>, crashed: bool)

  /** `parseRequest` from the payload on. */
  method HandleRequest(d: Decoder, body: Json, path: string, now: Clock) returns (r: Response)
    ensures r.BadRequest? <==> Unmarshal(d, body).None?
    ensures r.Handled? ==>
              var p := Unmarshal(d, body).value;
              && r.out == FanOut(Topic, Restored(p.envelope, path), p.events, 0, now)
              && (r.crashed <==> exists k | 0 <= k < |p.events| :: Crashes(p.events[k], now))
  {
    var p := UnmarshalEvents(d, body);
    if p.None? {
      return BadRequest;
    }
    var out, crashed := ParseRequest(p.value.envelope, path, p.value.events, now);
    r := Handled(out, crashed);
  }

  /** The messages of an accepted payload with the timestamp override off. */
  function Outgoing(d: Decoder, body: Json, path: string): seq<Message>
    requires Unmarshal(d, body).Some?
  {
    var p := Unmarshal(d, body).value;
    FanOut(Topic, Restored(p.envelope, path), p.events, 0, None)
  }

  /** End to end, for every accepted request with the timestamp override off: the payload is read as what it
      means; the events whose message ID has a topic become single-event messages, in payload order, in
      the received envelope with its context taken from the path if it is blank; and every broker
      receives exactly those on its topics. */
  lemma IngressConserves(d: Decoder, body: Json, path: string, brokers: seq<Broker>, b: nat)
    requires Unmarshal(d, body).Some? && b < |brokers|
    ensures var p := Unmarshal(d, body).value;
            var env := p.envelope.(context := if p.envelope.context == "" then PathBase(path) else p.envelope.context);
            var out, ks := Outgoing(d, body, path), Routable(Topic, p.events, 0);
            && PayloadMeans(d, body, p)
            && (forall k :: k in ks <==> 0 <= k < |p.events| && Topic(p.events[k].messageId).Some?)
            && (forall i, j | 0 <= i < j < |ks| :: ks[i] < ks[j])
            && Matches(Topic, env, p.events, None, out, ks)
            && Received(DeliverAll(brokers, out), b) == Wanted(out, brokers[b].topics)
  {
    var p := Unmarshal(d, body).value;
    UnmarshalIff(d, body, p);
    RoutableIsComplete(Topic, p.events, 0);
    FanOutConserves(Topic, Restored(p.envelope, path), p.events, 0, None);
    BrokersReceiveTheirTopics(brokers, Outgoing(d, body, path), b);
  }

  /** A payload that departs from the schema gives the same messages as its normal form. */
  lemma IngressIsNormal(d: Decoder, body: Json, path: string)
    requires Unmarshal(d, body).Some?
    ensures Unmarshal(d, Normalize(body)).Some? && Outgoing(d, Normalize(body), path) == Outgoing(d, body, path)
  {
    NormalizationIsInvisible(d, body);
  }
}
