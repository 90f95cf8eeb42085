/** `unmarshalEvents` (cmd/hmcollector/rest.go): decoding of event payloads that do not follow the
    Redfish schema.  JSON values are decoded already, keys are exact, and the fields the function does
    not treat specially go through an uninterpreted decoder. */
module EventDecoding {
  import opened Basics
  import opened Events

  datatype Json =
    | Null
    | Bool(b: bool)
    | Number(text: string)
    | Str(s: string)
    | Array(items: seq<Json>)
    | Object(fields: map<string, Json>)

  type Fields = map<string, Json>

  /** json.Unmarshal into the remaining fields of the envelope and of an event; None is an error. */
  datatype Decoder = Decoder(envelope: Fields -> Option<Envelope>, event: Fields -> Option<Event>)

  const EVENTS := "Events"
  const ORIGIN := "OriginOfCondition"
  const ODATA_ID := "@odata.id"

  /** Decoding into `*ResourceID`: null leaves nil, an object sets its identifier, the rest fails. */
  function DecodeOrigin(f: Fields): Option<Option<string>> {
    if ORIGIN !in f then Some(None)
    else
      match f[ORIGIN]
      case Null => Some(None)
      case Object(o) =>
        if ODATA_ID !in o || o[ODATA_ID].Null? then Some(Some(""))
        else if o[ODATA_ID].Str? then Some(Some(o[ODATA_ID].s))
        else None
      case _ => None
  }

  /** One event: a string OriginOfCondition is taken out before decoding and put back after. */
  function DecodeEvent(d: Decoder, f: Fields): Option<Event> {
    var isString := ORIGIN in f && f[ORIGIN].Str?;
    var origin := if isString then Some(Some(f[ORIGIN].s)) else DecodeOrigin(f);
    var data := d.event(f - {ORIGIN});
    if origin.None? || data.None? then None else Some(data.value.(origin := origin.value))
  }

  /** The event objects of the Events field: an array of objects, or a single object. */
  function EventObjects(v: Json): Option<seq<Fields>> {
    match v
    case Null => Some([])
    case Object(o) => Some([o])
    case Array(items) =>
      if forall i | 0 <= i < |items| :: items[i].Object? || items[i].Null?
      then Some(seq(|items|, i requires 0 <= i < |items| => FieldsOf(items[i])))
      else None
    case _ => None
  }

  function FieldsOf(j: Json): Fields {
    if j.Object? then j.fields else map[]
  }

  function DecodeAll(d: Decoder, fs: seq<Fields>): Option<seq<Event>> {
    if fs == [] then Some([])
    else
      var first, rest := DecodeEvent(d, fs[0]), DecodeAll(d, fs[1..]);
      if first.None? || rest.None? then None else Some([first.value] + rest.value)
  }

  function Unmarshal(d: Decoder, body: Json): Option<Payload> {
    if !body.Object? || EVENTS !in body.fields then None
    else
      var envelope := d.envelope(body.fields - {EVENTS});
      var objects := EventObjects(body.fields[EVENTS]);
      if envelope.None? || objects.None? then None
      else
        var events := DecodeAll(d, objects.value);
        if events.None? then None else Some(Payload(envelope.value, events.value))
  }

  lemma {:induction false} DecodeAllSplit(d: Decoder, fs: seq<Fields>, k: nat)
    requires k < |fs| && DecodeAll(d, fs[..k]).Some?
    ensures DecodeEvent(d, fs[k]).None? ==> DecodeAll(d, fs).None?
    ensures DecodeEvent(d, fs[k]).Some? ==>
              DecodeAll(d, fs[..k + 1]) == Some(DecodeAll(d, fs[..k]).value + [DecodeEvent(d, fs[k]).value])
  {
    if k == 0 {
      assert fs[..0] == [] && fs[..1] == [fs[0]] && fs[..1][1..] == [];
      assert DecodeAll(d, fs[..0]) == Some([]) && DecodeAll(d, fs[..1][1..]) == Some([]);
      if DecodeEvent(d, fs[0]).Some? {
        var x := [DecodeEvent(d, fs[0]).value];
        assert DecodeAll(d, fs[..1]) == Some(x + []);
        assert x + [] == [] + x;
      }
    } else {
      assert fs[1..][..k - 1] == fs[..k][1..] && fs[1..][..k] == fs[..k + 1][1..];
      DecodeAllSplit(d, fs[1..], k - 1);
      if DecodeEvent(d, fs[k]).Some? {
        var a, mid, b := DecodeEvent(d, fs[0]).value, DecodeAll(d, fs[..k][1..]).value, DecodeEvent(d, fs[k]).value;
        assert [a] + (mid + [b]) == [a] + mid + [b];
      }
    }
  }

  method UnmarshalEvents(d: Decoder, body: Json) returns (r: Option<Payload>)
    ensures r == Unmarshal(d, body)
  {
    if !body.Object? || EVENTS !in body.fields {
      return None;
    }
    var v := body.fields[EVENTS];
    var envelope := d.envelope(body.fields - {EVENTS});
    if envelope.None? {
      return None;
    }
    var objects := EventObjects(v);
    if objects.None? {
      return None;
    }
    var fs := objects.value;
    var events: seq<Event> := [];
    var i := 0;
    while i < |fs|
      invariant 0 <= i <= |fs|
      invariant DecodeAll(d, fs[..i]) == Some(events)
    {
      DecodeAllSplit(d, fs, i);
      var ev := DecodeEvent(d, fs[i]);
      if ev.None? {
        return None;
      }
      events := events + [ev.value];
      i := i + 1;
    }
    assert fs[..i] == fs;
    r := Some(Payload(envelope.value, events));
  }

  // ------------------------------------------------ normalisation

  function NormalizeEvent(f: Fields): Fields {
    if ORIGIN in f && f[ORIGIN].Str? then f[ORIGIN := Object(map[ODATA_ID := Str(f[ORIGIN].s)])] else f
  }

  function NormalizeItem(j: Json): Json {
    if j.Object? then Object(NormalizeEvent(j.fields)) else j
  }

  /** The payload the schema asks for: an array, with OriginOfCondition objects. */
  function Normalize(body: Json): Json {
    if !body.Object? || EVENTS !in body.fields then body
    else
      match body.fields[EVENTS]
      case Object(o) => Object(body.fields[EVENTS := Array([Object(NormalizeEvent(o))])])
      case Array(items) =>
        Object(body.fields[EVENTS := Array(seq(|items|, i requires 0 <= i < |items| => NormalizeItem(items[i])))])
      case _ => body
  }

  lemma EventIsInvariant(d: Decoder, f: Fields)
    ensures DecodeEvent(d, NormalizeEvent(f)) == DecodeEvent(d, f)
  {
    assert NormalizeEvent(f) - {ORIGIN} == f - {ORIGIN};
  }

  lemma {:induction false} EventsAreInvariant(d: Decoder, fs: seq<Fields>, gs: seq<Fields>)
    requires |fs| == |gs| && forall i | 0 <= i < |fs| :: DecodeEvent(d, gs[i]) == DecodeEvent(d, fs[i])
    ensures DecodeAll(d, gs) == DecodeAll(d, fs)
  {
    if fs == [] {
    } else {
      EventsAreInvariant(d, fs[1..], gs[1..]);
    }
  }

  lemma ObjectsAreInvariant(d: Decoder, v: Json, w: Json)
    requires v.Array? && w.Array? && |v.items| == |w.items|
    requires forall i | 0 <= i < |v.items| :: w.items[i] == NormalizeItem(v.items[i])
    ensures EventObjects(v).Some? <==> EventObjects(w).Some?
    ensures EventObjects(v).Some? ==> DecodeAll(d, EventObjects(w).value) == DecodeAll(d, EventObjects(v).value)
  {
    assert forall i | 0 <= i < |v.items| :: (v.items[i].Object? || v.items[i].Null?) == (w.items[i].Object? || w.items[i].Null?);
    if EventObjects(v).Some? {
      var fs, gs := EventObjects(v).value, EventObjects(w).value;
      forall i | 0 <= i < |fs| ensures DecodeEvent(d, gs[i]) == DecodeEvent(d, fs[i]) {
        EventIsInvariant(d, fs[i]);
      }
      EventsAreInvariant(d, fs, gs);
    }
  }

  /** Decoding does not distinguish a payload from its normal form: a single object stands for a
      one-element array and a string for an OriginOfCondition object, in every payload. */
  lemma NormalizationIsInvisible(d: Decoder, body: Json)
    ensures Unmarshal(d, Normalize(body)) == Unmarshal(d, body)
  {
    if body.Object? && EVENTS in body.fields {
      var v, n := body.fields[EVENTS], Normalize(body);
      assert n.fields - {EVENTS} == body.fields - {EVENTS};
      match v
      case Object(o) =>
        ObjectsAreInvariant(d, Array([v]), n.fields[EVENTS]);
        assert EventObjects(Array([v])).value == [o];
      case Array(items) =>
        ObjectsAreInvariant(d, v, n.fields[EVENTS]);
      case _ =>
    }
  }

  lemma {:induction false} DecodeAllInOrder(d: Decoder, fs: seq<Fields>)
    requires DecodeAll(d, fs).Some?
    ensures var es := DecodeAll(d, fs).value;
            |es| == |fs| && forall i | 0 <= i < |fs| :: DecodeEvent(d, fs[i]) == Some(es[i])
  {
    if fs == [] {
    } else {
      DecodeAllInOrder(d, fs[1..]);
    }
  }

  lemma {:induction false} DecodeAllIff(d: Decoder, fs: seq<Fields>)
    ensures DecodeAll(d, fs).Some? <==> forall i | 0 <= i < |fs| :: DecodeEvent(d, fs[i]).Some?
  {
    if fs == [] {
    } else {
      DecodeAllIff(d, fs[1..]);
      if forall i | 0 <= i < |fs| :: DecodeEvent(d, fs[i]).Some? {
        assert forall i | 0 <= i < |fs[1..]| :: fs[1..][i] == fs[i + 1];
      } else if DecodeEvent(d, fs[0]).Some? {
        var i :| 0 <= i < |fs| && DecodeEvent(d, fs[i]).None?;
        assert fs[1..][i - 1] == fs[i];
      }
    }
  }

  // ------------------------------------------------ what a payload means

  /** The OriginOfCondition of an event object: a string, an object with an identifier, null or missing. */
  predicate OriginIs(f: Fields, origin: Option<string>) {
    if ORIGIN !in f then origin == None
    else
      match f[ORIGIN]
      case Null => origin == None
      case Str(s) => origin == Some(s)
      case Object(o) => origin.Some? && (if ODATA_ID in o && o[ODATA_ID] != Null then o[ODATA_ID] == Str(origin.value) else origin.value == "")
      case _ => false
  }

  /** An event object means its other fields together with its origin; null stands for an empty object. */
  predicate Means(d: Decoder, item: Json, e: Event) {
    match item
    case Object(f) => OriginIs(f, e.origin) && d.event(f - {ORIGIN}).Some? && e == d.event(f - {ORIGIN}).value.(origin := e.origin)
    case Null => e.origin == None && d.event(map[]).Some? && e == d.event(map[]).value.(origin := None)
    case _ => false
  }

  /** A payload means its envelope and, in order, the events of its array, or its single event object. */
  predicate PayloadMeans(d: Decoder, body: Json, p: Payload) {
    && body.Object? && EVENTS in body.fields && d.envelope(body.fields - {EVENTS}) == Some(p.envelope)
    && match body.fields[EVENTS]
       case Array(items) => |p.events| == |items| && forall i | 0 <= i < |items| :: Means(d, items[i], p.events[i])
       case Object(_) => |p.events| == 1 && Means(d, body.fields[EVENTS], p.events[0])
       case Null => p.events == []
       case _ => false
  }

  /** Decoding one event object, with its string origin taken out and put back, gives what it means. */
  lemma EventIsMeant(d: Decoder, item: Json, e: Event)
    requires item.Object? || item.Null?
    ensures DecodeEvent(d, FieldsOf(item)) == Some(e) <==> Means(d, item, e)
  {
    if item.Null? {
      var none: Fields := map[];
      assert none - {ORIGIN} == none;
    }
  }

  lemma {:induction false} DecodeAllIs(d: Decoder, fs: seq<Fields>, es: seq<Event>)
    ensures DecodeAll(d, fs) == Some(es) <==> |es| == |fs| && forall i | 0 <= i < |fs| :: DecodeEvent(d, fs[i]) == Some(es[i])
  {
    DecodeAllIff(d, fs);
    if DecodeAll(d, fs).Some? {
      DecodeAllInOrder(d, fs);
      if |es| == |fs| && forall i | 0 <= i < |fs| :: DecodeEvent(d, fs[i]) == Some(es[i]) {
        var all := DecodeAll(d, fs).value;
        assert forall i | 0 <= i < |fs| :: Some(all[i]) == DecodeEvent(d, fs[i]) == Some(es[i]);
        assert all == es;
      }
    }
  }

  lemma ArrayIsMeant(d: Decoder, items: seq<Json>, es: seq<Event>)
    ensures (EventObjects(Array(items)).Some? && DecodeAll(d, EventObjects(Array(items)).value) == Some(es)) <==>
            |es| == |items| && forall i | 0 <= i < |items| :: Means(d, items[i], es[i])
  {
    if forall i | 0 <= i < |items| :: items[i].Object? || items[i].Null? {
      var fs := EventObjects(Array(items)).value;
      DecodeAllIs(d, fs, es);
      forall i | 0 <= i < |items| && |es| == |items| ensures DecodeEvent(d, fs[i]) == Some(es[i]) <==> Means(d, items[i], es[i]) {
        EventIsMeant(d, items[i], es[i]);
      }
    } else {
      var i :| 0 <= i < |items| && !items[i].Object? && !items[i].Null?;
      assert |es| == |items| ==> !Means(d, items[i], es[i]);
    }
  }

  /** A payload is accepted with a result if and only if the result is what it means. */
  lemma UnmarshalIff(d: Decoder, body: Json, p: Payload)
    ensures Unmarshal(d, body) == Some(p) <==> PayloadMeans(d, body, p)
  {
    if body.Object? && EVENTS in body.fields {
      match body.fields[EVENTS]
      case Array(items) => ArrayIsMeant(d, items, p.events);
      case Object(o) =>
        DecodeAllIs(d, [o], p.events);
        if |p.events| == 1 {
          EventIsMeant(d, body.fields[EVENTS], p.events[0]);
        }
      case Null => DecodeAllIs(d, [], p.events);
      case _ =>
    }
  }

  /** Event count and order are kept: the i-th event of an accepted payload is what its i-th item means. */
  lemma CountAndOrder(d: Decoder, body: Json, items: seq<Json>)
    requires Unmarshal(d, body).Some?
    requires body.fields[EVENTS] == Array(items) || (body.fields[EVENTS].Object? && items == [body.fields[EVENTS]])
    ensures var es := Unmarshal(d, body).value.events;
            |es| == |items| && forall i | 0 <= i < |items| :: Means(d, items[i], es[i])
  {
    UnmarshalIff(d, body, Unmarshal(d, body).value);
  }

  /** An event object that has a meaning. */
  predicate Meaningful(d: Decoder, item: Json) {
    match item
    case Object(f) =>
      d.event(f - {ORIGIN}).Some? &&
      (ORIGIN in f ==>
         f[ORIGIN].Null? || f[ORIGIN].Str? ||
         (f[ORIGIN].Object? && (ODATA_ID in f[ORIGIN].fields ==> f[ORIGIN].fields[ODATA_ID].Null? || f[ORIGIN].fields[ODATA_ID].Str?)))
    case Null => d.event(map[]).Some?
    case _ => false
  }

  lemma MeaningfulDecodes(d: Decoder, item: Json)
    requires item.Object? || item.Null?
    ensures DecodeEvent(d, FieldsOf(item)).Some? <==> Meaningful(d, item)
  {
    if item.Null? {
      var none: Fields := map[];
      assert none - {ORIGIN} == none;
    }
  }

  /** A payload is accepted if and only if its envelope decodes, its Events field is an array, an object or null,
      and every event object in it has decodable fields and an origin that is a string, an object with a
      string identifier or none, null or missing. */
  lemma AcceptedIff(d: Decoder, body: Json)
    ensures Unmarshal(d, body).Some? <==>
            && body.Object? && EVENTS in body.fields && d.envelope(body.fields - {EVENTS}).Some?
            && match body.fields[EVENTS]
               case Array(items) => forall i | 0 <= i < |items| :: Meaningful(d, items[i])
               case Object(_) => Meaningful(d, body.fields[EVENTS])
               case Null => true
               case _ => false
  {
    if body.Object? && EVENTS in body.fields {
      match body.fields[EVENTS]
      case Array(items) =>
        if forall i | 0 <= i < |items| :: items[i].Object? || items[i].Null? {
          DecodeAllIff(d, EventObjects(Array(items)).value);
          forall i | 0 <= i < |items|
            ensures DecodeEvent(d, EventObjects(Array(items)).value[i]).Some? <==> Meaningful(d, items[i])
          {
            MeaningfulDecodes(d, items[i]);
          }
        } else {
          var i :| 0 <= i < |items| && !items[i].Object? && !items[i].Null?;
          assert !Meaningful(d, items[i]);
        }
      case Object(o) =>
        DecodeAllIff(d, [o]);
        MeaningfulDecodes(d, body.fields[EVENTS]);
      case Null =>
      case _ =>
    }
  }
}
