/** The HPE PDU collector (internal/river_collector/hpepdu.go): outlet power-state events. */
module PduCollector {
  import opened Basics

  // ================================================ outlet power states

  /** One decoded outlet payload. */
  datatype Reading = Reading(oid: string, powerState: string)

  /** A power-state event: the outlet and the state it changed to. */
  datatype StateEvent = StateEvent(oid: string, state: string)

  /** Last power state per polled URL. */
  type Sensors = map<string, string>

  function Store(s: Sensors, r: Reading): Sensors {
    if r.oid in s && s[r.oid] != r.powerState then s[r.oid := r.powerState] else s
  }

  function Emit(s: Sensors, r: Reading): seq<StateEvent> {
    if r.oid in s && s[r.oid] != r.powerState then [StateEvent(r.oid, r.powerState)] else []
  }

  class Collector {
    var sensors: Sensors

    /** Sensors start without a known state. */
    constructor (urls: set<string>)
      ensures sensors == Blank(urls)
    {
      sensors := map u | u in urls :: "";
    }

    /** `parseOutletPayload`, without the four telemetry events it always appends first. */
    method ParseOutlet(r: Reading) returns (events: seq<StateEvent>)
      modifies this
      ensures events == Emit(old(sensors), r) && sensors == Store(old(sensors), r)
    {
      events := [];
      if r.oid !in sensors {
        return;
      }
      if sensors[r.oid] == r.powerState {
        return;
      }
      sensors := sensors[r.oid := r.powerState];
      events := [StateEvent(r.oid, r.powerState)];
    }
  }

  function Blank(urls: set<string>): Sensors {
    map u | u in urls :: ""
  }

  function StoreAll(s: Sensors, rs: seq<Reading>): Sensors
    decreases |rs|
  {
    if rs == [] then s else StoreAll(Store(s, rs[0]), rs[1..])
  }

  function EmitAll(s: Sensors, rs: seq<Reading>): seq<StateEvent>
    decreases |rs|
  {
    if rs == [] then [] else Emit(s, rs[0]) + EmitAll(Store(s, rs[0]), rs[1..])
  }

  /** States observed for one outlet. */
  function Observed(rs: seq<Reading>, oid: string): seq<string> {
    if rs == [] then []
    else (if rs[0].oid == oid then [rs[0].powerState] else []) + Observed(rs[1..], oid)
  }

  /** States announced for one outlet. */
  function Announced(es: seq<StateEvent>, oid: string): seq<string> {
    if es == [] then []
    else (if es[0].oid == oid then [es[0].state] else []) + Announced(es[1..], oid)
  }

  /** `xs` is `ys` with each element repeated one or more times. */
  predicate Stretches(xs: seq<string>, ys: seq<string>)
    decreases |xs|
  {
    if xs == [] || ys == [] then xs == [] && ys == []
    else xs[0] == ys[0] && (Stretches(xs[1..], ys[1..]) || Stretches(xs[1..], ys))
  }

  lemma {:induction false} AnnouncedAppend(a: seq<StateEvent>, b: seq<StateEvent>, oid: string)
    ensures Announced(a + b, oid) == Announced(a, oid) + Announced(b, oid)
  {
    if a == [] {
      assert a + b == b;
    } else {
      AnnouncedAppend(a[1..], b, oid);
      assert (a + b)[0] == a[0] && (a + b)[1..] == a[1..] + b;
    }
  }

  /** The states at which a sequence of observations changes, starting from `last`. */
  function Edges(last: string, xs: seq<string>): seq<string>
    decreases |xs|
  {
    if xs == [] then []
    else if xs[0] == last then Edges(last, xs[1..])
    else [xs[0]] + Edges(xs[0], xs[1..])
  }

  function Last(x: string, xs: seq<string>): string {
    if xs == [] then x else xs[|xs| - 1]
  }

  /** One outlet is not disturbed by the others. */
  lemma {:induction false} OutletsAreIndependent(s: Sensors, rs: seq<Reading>, oid: string)
    requires oid in s
    ensures Announced(EmitAll(s, rs), oid) == Edges(s[oid], Observed(rs, oid))
    ensures oid in StoreAll(s, rs) && StoreAll(s, rs)[oid] == Last(s[oid], Observed(rs, oid))
    decreases |rs|
  {
    if rs == [] {
    } else {
      var s1, r, tail := Store(s, rs[0]), rs[0], rs[1..];
      OutletsAreIndependent(s1, tail, oid);
      AnnouncedAppend(Emit(s, r), EmitAll(s1, tail), oid);
      if r.oid == oid {
        var seen := [r.powerState] + Observed(tail, oid);
        assert Observed(rs, oid) == seen && seen[1..] == Observed(tail, oid);
        if s[oid] != r.powerState {
          assert Announced(Emit(s, r), oid) == [r.powerState] + Announced([], oid) == [r.powerState];
        } else {
          assert Announced(Emit(s, r), oid) == [];
        }
      } else {
        assert Announced(Emit(s, r), oid) == [];
        assert Observed(rs, oid) == Observed(tail, oid);
      }
    }
  }

  lemma TailStutterFree(xs: seq<string>)
    requires StutterFree(xs) && xs != []
    ensures StutterFree(xs[1..])
  {
    var t := xs[1..];
    forall i | 0 <= i < |t| - 1 ensures t[i] != t[i + 1] {
      assert t[i] == xs[i + 1] && t[i + 1] == xs[i + 1 + 1];
    }
  }

  lemma StretchCons(x: string, xs: seq<string>, ys: seq<string>)
    requires Stretches(xs, ys)
    ensures Stretches([x] + xs, [x] + ys)
    ensures ys != [] && ys[0] == x ==> Stretches([x] + xs, ys)
  {
    assert ([x] + xs)[1..] == xs && ([x] + ys)[1..] == ys;
  }

  lemma {:induction false} EdgesAreStutterFree(last: string, xs: seq<string>)
    ensures StutterFree([last] + Edges(last, xs)) && Stretches([last] + xs, [last] + Edges(last, xs))
    ensures Last(last, Edges(last, xs)) == Last(last, xs)
    decreases |xs|
  {
    if xs == [] {
      StretchCons(last, [], []);
    } else {
      var x, tail := xs[0], xs[1..];
      EdgesAreStutterFree(x, tail);
      assert xs == [x] + tail;
      StretchCons(last, xs, [x] + Edges(x, tail));
      if x != last {
        PrependStutterFree(last, [x] + Edges(x, tail));
      }
    }
  }

  /** A stutter-free list of which `xs` is a stretching is unique. */
  lemma {:induction false} StutterFreeIsUnique(xs: seq<string>, ys: seq<string>, zs: seq<string>)
    requires Stretches(xs, ys) && Stretches(xs, zs) && StutterFree(ys) && StutterFree(zs)
    ensures ys == zs
    decreases |xs|
  {
    if xs == [] {
    } else {
      TailStutterFree(ys);
      TailStutterFree(zs);
      StutterFreeIsUnique(xs[1..], if Stretches(xs[1..], ys) then ys else ys[1..],
                                   if Stretches(xs[1..], zs) then zs else zs[1..]);
      assert ys == [ys[0]] + ys[1..] && zs == [zs[0]] + zs[1..];
    }
  }

  /** In any interleaving of outlets polled from a fresh collector, the states announced for a known
      outlet are the one and only stutter-free form of its observed states, starting from "", and
      the stored state is the last one observed. */
  lemma PowerStateEvents(urls: set<string>, rs: seq<Reading>, oid: string, zs: seq<string>)
    requires oid in urls
    ensures var out, seen := Announced(EmitAll(Blank(urls), rs), oid), Observed(rs, oid);
            && (StutterFree([""] + zs) && Stretches([""] + seen, [""] + zs) <==> zs == out)
            && StoreAll(Blank(urls), rs).Keys == urls
            && StoreAll(Blank(urls), rs)[oid] == Last("", seen)
  {
    var s := Blank(urls);
    OutletsAreIndependent(s, rs, oid);
    var out, seen := Announced(EmitAll(s, rs), oid), Observed(rs, oid);
    EdgesAreStutterFree("", seen);
    if StutterFree([""] + zs) && Stretches([""] + seen, [""] + zs) {
      StutterFreeIsUnique([""] + seen, [""] + zs, [""] + out);
      assert ([""] + zs)[1..] == zs && ([""] + out)[1..] == out;
    }
    KeysStay(s, rs);
  }

  /** The set of polled URLs never changes, and unknown outlets announce nothing. */
  lemma {:induction false} KeysStay(s: Sensors, rs: seq<Reading>)
    ensures StoreAll(s, rs).Keys == s.Keys
    ensures forall e | e in EmitAll(s, rs) :: e.oid in s
    decreases |rs|
  {
    if rs == [] {
    } else {
      KeysStay(Store(s, rs[0]), rs[1..]);
      assert Store(s, rs[0]).Keys == s.Keys;
    }
  }
}
