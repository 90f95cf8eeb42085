/** What one operation against a BMC does to its subscriptions, whatever fails. */
module SubscriptionFacts {
  import opened Basics
  import opened Subscriptions

  // ------------------------------------------------ list views of the two loops

  function Patched(x: Member, id: string): Member {
    x.(sub := x.sub.(context := id))
  }

  /** The prune loop seen as a filter on the list it walks. */
  function Sweep(c: Site, id: string, net: Net, rest: seq<Member>): seq<Member> {
    if rest == [] then []
    else
      var x := rest[0];
      if && !net.fails(GetSubscription(x.oid))
         && ForWrongXname(c, id, x.sub)
         && !net.fails(DeleteSubscription(x.oid)) then
        Sweep(c, id, net, rest[1..])
      else [x] + Sweep(c, id, net, rest[1..])
  }

  /** The duplicate check seen as one walk over the list, without identifiers. */
  function Walk(c: Site, id: string, g: Group, net: Net, rest: seq<Member>): Scan {
    if rest == [] then Scan(Absent, [], false)
    else
      var x := rest[0];
      if net.fails(GetSubscription(x.oid)) then Scan(CheckError, rest, false)
      else if Ours(c, id, g, x.sub) then
        if x.sub.context == id then Scan(Present, rest, false)
        else if !net.fails(PatchContext(x.oid)) then Scan(Present, [Patched(x, id)] + rest[1..], false)
        else if !net.fails(DeleteSubscription(x.oid)) then Scan(Absent, rest[1..], false)
        else Scan(Absent, rest, true)
      else
        var w := Walk(c, id, g, net, rest[1..]);
        if && x.sub.destination != c.destination(id)
           && ForWrongXname(c, id, x.sub)
           && !net.fails(DeleteSubscription(x.oid)) then w
        else w.(members := [x] + w.members)
  }

  lemma {:induction false} RemoveAbsent(m: seq<Member>, oid: string)
    requires !HasOid(m, oid)
    ensures Remove(m, oid) == m
    ensures forall ctx :: SetContext(m, oid, ctx) == m
  {
    if m == [] {
    } else {
      assert m[0].oid != oid;
      assert forall i | 0 <= i < |m[1..]| :: m[1..][i] == m[i + 1];
      RemoveAbsent(m[1..], oid);
    }
  }

  lemma {:induction false} LocateRemove(kept: seq<Member>, x: Member, tail: seq<Member>)
    requires !HasOid(kept, x.oid) && !HasOid(tail, x.oid)
    ensures Remove(kept + [x] + tail, x.oid) == kept + tail
  {
    var m := kept + [x] + tail;
    if kept == [] {
      assert m[0] == x && m[1..] == tail && kept + tail == tail;
      RemoveAbsent(tail, x.oid);
    } else {
      var rest := kept[1..];
      assert kept[0].oid != x.oid;
      assert forall i | 0 <= i < |rest| :: rest[i] == kept[i + 1];
      LocateRemove(rest, x, tail);
      assert m[0] == kept[0] && m[1..] == rest + [x] + tail;
      assert [kept[0]] + (rest + tail) == kept + tail;
    }
  }

  lemma {:induction false} LocateSet(kept: seq<Member>, x: Member, tail: seq<Member>, ctx: string)
    requires !HasOid(kept, x.oid) && !HasOid(tail, x.oid)
    ensures SetContext(kept + [x] + tail, x.oid, ctx) == kept + [Patched(x, ctx)] + tail
  {
    var m, y := kept + [x] + tail, Patched(x, ctx);
    if kept == [] {
      assert m[0] == x && m[1..] == tail && kept + [y] + tail == [y] + tail;
      RemoveAbsent(tail, x.oid);
    } else {
      var rest := kept[1..];
      assert kept[0].oid != x.oid;
      assert forall i | 0 <= i < |rest| :: rest[i] == kept[i + 1];
      LocateSet(rest, x, tail, ctx);
      assert m[0] == kept[0] && m[1..] == rest + [x] + tail;
      assert [kept[0]] + (rest + [y] + tail) == kept + [y] + tail;
    }
  }

  lemma {:induction false} LocateLookup(kept: seq<Member>, x: Member, tail: seq<Member>)
    requires !HasOid(kept, x.oid)
    ensures Lookup(kept + [x] + tail, x.oid) == Some(x.sub)
  {
    var m := kept + [x] + tail;
    if kept == [] {
      assert m[0] == x;
    } else {
      assert kept[0].oid != x.oid;
      assert forall i | 0 <= i < |kept[1..]| :: kept[1..][i] == kept[i + 1];
      LocateLookup(kept[1..], x, tail);
      assert m[0] == kept[0] && m[1..] == kept[1..] + [x] + tail;
    }
  }

  /** An identifier of a duplicate-free list selects exactly its own entry. */
  lemma Locate(kept: seq<Member>, x: Member, tail: seq<Member>, ctx: string)
    requires !HasOid(kept, x.oid) && !HasOid(tail, x.oid)
    ensures Lookup(kept + [x] + tail, x.oid) == Some(x.sub)
    ensures Remove(kept + [x] + tail, x.oid) == kept + tail
    ensures SetContext(kept + [x] + tail, x.oid, ctx) == kept + [Patched(x, ctx)] + tail
  {
    LocateLookup(kept, x, tail);
    LocateRemove(kept, x, tail);
    LocateSet(kept, x, tail, ctx);
  }

  lemma Decompose(kept: seq<Member>, rest: seq<Member>)
    requires rest != [] && DistinctOids(kept + rest)
    ensures !HasOid(kept, rest[0].oid) && !HasOid(rest[1..], rest[0].oid)
    ensures kept + rest == kept + [rest[0]] + rest[1..]
    ensures DistinctOids(kept + rest[1..]) && DistinctOids(kept + [rest[0]] + rest[1..])
    ensures Oids(rest)[0] == rest[0].oid && Oids(rest)[1..] == Oids(rest[1..])
  {
    var m, n := kept + rest, kept + rest[1..];
    var k := |kept|;
    assert m[k] == rest[0];
    forall i | 0 <= i < |kept| ensures kept[i].oid != rest[0].oid {
      assert m[i] == kept[i];
    }
    forall i | 0 <= i < |rest[1..]| ensures rest[1..][i].oid != rest[0].oid {
      assert m[k + 1 + i] == rest[1..][i];
    }
    forall i, j | 0 <= i < j < |n| ensures n[i].oid != n[j].oid {
      assert n[i] == m[if i < k then i else i + 1];
      assert n[j] == m[if j < k then j else j + 1];
    }
    assert kept + rest == kept + [rest[0]] + rest[1..];
  }

  lemma {:induction false} PruneIsSweepFrom(c: Site, id: string, net: Net, kept: seq<Member>, rest: seq<Member>)
    requires DistinctOids(kept + rest)
    ensures PruneFrom(c, id, net, Oids(rest), kept + rest) == kept + Sweep(c, id, net, rest)
    decreases |rest|
  {
    if rest == [] {
      assert kept + rest == kept;
    } else {
      var x, tail := rest[0], rest[1..];
      Decompose(kept, rest);
      Locate(kept, x, tail, "");
      PruneIsSweepFrom(c, id, net, kept, tail);
      PruneIsSweepFrom(c, id, net, kept + [x], tail);
    }
  }

  /** A walk whose result is put behind the entries already passed. */
  function Behind(kept: seq<Member>, w: Scan): Scan {
    Scan(w.check, kept + w.members, w.stuck)
  }

  lemma FixIsWalk(c: Site, id: string, net: Net, kept: seq<Member>, x: Member, tail: seq<Member>)
    requires !HasOid(kept, x.oid) && !HasOid(tail, x.oid)
    ensures FixContext(c, id, net, x.oid, kept + [x] + tail) ==
              if !net.fails(PatchContext(x.oid)) then Scan(Present, kept + [Patched(x, id)] + tail, false)
              else if !net.fails(DeleteSubscription(x.oid)) then Scan(Absent, kept + tail, false)
              else Scan(Absent, kept + [x] + tail, true)
  {
    Locate(kept, x, tail, id);
  }

  /** An entry that the duplicate check deletes on its way. */
  predicate Prunes(c: Site, id: string, net: Net, x: Member) {
    x.sub.destination != c.destination(id) && ForWrongXname(c, id, x.sub) && !net.fails(DeleteSubscription(x.oid))
  }

  /** One entry that is not ours is passed over, or pruned. */
  lemma ScanPasses(c: Site, id: string, g: Group, net: Net, kept: seq<Member>, rest: seq<Member>)
    requires rest != [] && DistinctOids(kept + rest)
    requires !net.fails(GetSubscription(rest[0].oid)) && !Ours(c, id, g, rest[0].sub)
    ensures var x, tail := rest[0], rest[1..];
            ScanFrom(c, id, g, net, Oids(rest), kept + rest) ==
            ScanFrom(c, id, g, net, Oids(tail), (if Prunes(c, id, net, x) then kept else kept + [x]) + tail)
  {
    Decompose(kept, rest);
    Locate(kept, rest[0], rest[1..], id);
  }

  /** One entry that cannot be read, or is ours, ends the scan. */
  lemma ScanStops(c: Site, id: string, g: Group, net: Net, kept: seq<Member>, rest: seq<Member>)
    requires rest != [] && DistinctOids(kept + rest)
    requires net.fails(GetSubscription(rest[0].oid)) || Ours(c, id, g, rest[0].sub)
    ensures ScanFrom(c, id, g, net, Oids(rest), kept + rest) == Behind(kept, Walk(c, id, g, net, rest))
  {
    var x, tail := rest[0], rest[1..];
    Decompose(kept, rest);
    LocateLookup(kept, x, tail);
    if !net.fails(GetSubscription(x.oid)) {
      FixIsWalk(c, id, net, kept, x, tail);
      assert kept + [Patched(x, id)] + tail == kept + ([Patched(x, id)] + tail);
    }
  }

  lemma WalkPasses(c: Site, id: string, g: Group, net: Net, kept: seq<Member>, rest: seq<Member>)
    requires rest != [] && !net.fails(GetSubscription(rest[0].oid)) && !Ours(c, id, g, rest[0].sub)
    ensures Behind(kept, Walk(c, id, g, net, rest)) ==
            Behind(if Prunes(c, id, net, rest[0]) then kept else kept + [rest[0]], Walk(c, id, g, net, rest[1..]))
  {
    var w := Walk(c, id, g, net, rest[1..]).members;
    assert kept + [rest[0]] + w == kept + ([rest[0]] + w);
  }

  lemma {:induction false} ScanIsWalkFrom(c: Site, id: string, g: Group, net: Net, kept: seq<Member>, rest: seq<Member>)
    requires DistinctOids(kept + rest)
    ensures ScanFrom(c, id, g, net, Oids(rest), kept + rest) == Behind(kept, Walk(c, id, g, net, rest))
    decreases |rest|
  {
    if rest == [] {
      assert kept + rest == kept;
    } else if net.fails(GetSubscription(rest[0].oid)) || Ours(c, id, g, rest[0].sub) {
      ScanStops(c, id, g, net, kept, rest);
    } else {
      Decompose(kept, rest);
      ScanPasses(c, id, g, net, kept, rest);
      WalkPasses(c, id, g, net, kept, rest);
      ScanIsWalkFrom(c, id, g, net, if Prunes(c, id, net, rest[0]) then kept else kept + [rest[0]], rest[1..]);
    }
  }

  /** Both loops are independent of how identifiers are resolved. */
  lemma LoopsAreWalks(c: Site, id: string, g: Group, net: Net, m: seq<Member>)
    requires DistinctOids(m)
    ensures Prune(c, id, net, m) == if c.prune && !net.fails(ListSubscriptions) then Sweep(c, id, net, m) else m
    ensures IsDup(c, id, g, net, m) ==
            if net.fails(ListSubscriptions) then Scan(CheckError, m, false) else Walk(c, id, g, net, m)
  {
    assert [] + m == m;
    PruneIsSweepFrom(c, id, net, [], m);
    ScanIsWalkFrom(c, id, g, net, [], m);
    var w, s := Walk(c, id, g, net, m), Sweep(c, id, net, m);
    assert [] + w.members == w.members && [] + s == s;
  }

  // ------------------------------------------------ identifiers stay distinct

  /** Every identifier of `n` is one of `m`. */
  predicate OidsWithin(n: seq<Member>, m: seq<Member>) {
    forall i | 0 <= i < |n| :: HasOid(m, n[i].oid)
  }

  lemma ConsDistinct(x: Member, x': Member, n: seq<Member>, tail: seq<Member>)
    requires DistinctOids([x] + tail) && x'.oid == x.oid
    requires DistinctOids(n) && OidsWithin(n, tail)
    ensures DistinctOids([x'] + n) && OidsWithin([x'] + n, [x] + tail)
  {
    var m := [x] + tail;
    assert m[0] == x;
    forall i | 0 <= i < |n| ensures n[i].oid != x.oid && HasOid(m, n[i].oid) {
      var k :| 0 <= k < |tail| && tail[k].oid == n[i].oid;
      assert m[k + 1] == tail[k];
    }
  }

  lemma TailWithin(n: seq<Member>, m: seq<Member>)
    requires m != [] && DistinctOids(m) && OidsWithin(n, m[1..])
    ensures OidsWithin(n, m) && DistinctOids(m[1..])
  {
    forall i | 0 <= i < |n| ensures HasOid(m, n[i].oid) {
      assert HasOid(m[1..], n[i].oid);
      var k :| 0 <= k < |m[1..]| && m[1..][k].oid == n[i].oid;
      assert m[k + 1].oid == n[i].oid;
    }
  }

  lemma {:induction false} SweepOids(c: Site, id: string, net: Net, m: seq<Member>)
    requires DistinctOids(m)
    ensures DistinctOids(Sweep(c, id, net, m)) && OidsWithin(Sweep(c, id, net, m), m)
  {
    if m == [] {
    } else {
      TailWithin([], m);
      SweepOids(c, id, net, m[1..]);
      TailWithin(Sweep(c, id, net, m[1..]), m);
      assert m == [m[0]] + m[1..];
      ConsDistinct(m[0], m[0], Sweep(c, id, net, m[1..]), m[1..]);
    }
  }

  lemma SelfWithin(m: seq<Member>)
    ensures OidsWithin(m, m)
  {
  }

  lemma {:induction false} WalkOids(c: Site, id: string, g: Group, net: Net, m: seq<Member>)
    requires DistinctOids(m)
    ensures var n := Walk(c, id, g, net, m).members; DistinctOids(n) && OidsWithin(n, m)
  {
    SelfWithin(m);
    if m == [] {
    } else {
      var x, tail := m[0], m[1..];
      assert m == [x] + tail;
      TailWithin([], m);
      SelfWithin(tail);
      TailWithin(tail, m);
      ConsDistinct(x, Patched(x, id), tail, tail);
      WalkOids(c, id, g, net, tail);
      var w := Walk(c, id, g, net, tail).members;
      TailWithin(w, m);
      ConsDistinct(x, x, w, tail);
    }
  }

  lemma {:induction false} LoseOids(m: seq<Member>, oids: set<string>)
    requires DistinctOids(m)
    ensures DistinctOids(Lose(m, oids)) && OidsWithin(Lose(m, oids), m)
  {
    if m == [] {
    } else {
      TailWithin([], m);
      LoseOids(m[1..], oids);
      TailWithin(Lose(m[1..], oids), m);
      assert m == [m[0]] + m[1..];
      ConsDistinct(m[0], m[0], Lose(m[1..], oids), m[1..]);
    }
  }

  lemma OpKeepsDistinctOids(c: Site, id: string, op: Op, m: seq<Member>)
    requires DistinctOids(m)
    ensures DistinctOids(Apply(c, id, op, m))
  {
    match op
    case PruneOp(net) =>
      LoopsAreWalks(c, id, NilGroup, net, m);
      SweepOids(c, id, net, m);
    case CheckOp(_, g, net) =>
      LoopsAreWalks(c, id, g, net, m);
      WalkOids(c, id, g, net, m);
    case PostOp(_, g, net) =>
    case VerifyOp(g, net) =>
      LoopsAreWalks(c, id, g, net, m);
      WalkOids(c, id, g, net, m);
    case LoseOp(oids) =>
      LoseOids(m, oids);
  }

  // ------------------------------------------------ our own subscriptions survive

  /** A subscription to this endpoint's address carrying its name. */
  predicate Correct(c: Site, id: string, sub: Subscription) {
    sub.destination == c.destination(id) && sub.context == id
  }

  predicate InPlace(c: Site, id: string, g: Group, m: seq<Member>) {
    exists x | x in m :: Correct(c, id, x.sub) && MatchesGroup(g, x.sub.registryPrefixes)
  }

  lemma {:induction false} SweepKeeps(c: Site, id: string, net: Net, m: seq<Member>, x: Member)
    requires x in m && Correct(c, id, x.sub)
    ensures x in Sweep(c, id, net, m)
  {
    if x == m[0] {
    } else {
      SweepKeeps(c, id, net, m[1..], x);
    }
  }

  lemma {:induction false} WalkKeeps(c: Site, id: string, g: Group, net: Net, m: seq<Member>, x: Member)
    requires x in m && Correct(c, id, x.sub)
    ensures x in Walk(c, id, g, net, m).members
  {
    if x == m[0] {
    } else {
      WalkKeeps(c, id, g, net, m[1..], x);
    }
  }

  /** A correct subscription survives every operation of the program, whatever fails. */
  lemma CorrectSurvives(c: Site, id: string, op: Op, m: seq<Member>, x: Member)
    requires DistinctOids(m) && x in m && Correct(c, id, x.sub) && !op.LoseOp?
    ensures x in Apply(c, id, op, m)
  {
    match op
    case PruneOp(net) =>
      LoopsAreWalks(c, id, NilGroup, net, m);
      SweepKeeps(c, id, net, m, x);
    case CheckOp(_, g, net) =>
      LoopsAreWalks(c, id, g, net, m);
      WalkKeeps(c, id, g, net, m, x);
    case PostOp(_, g, net) =>
    case VerifyOp(g, net) =>
      LoopsAreWalks(c, id, g, net, m);
      WalkKeeps(c, id, g, net, m, x);
  }

  lemma InPlaceSurvives(c: Site, id: string, g: Group, op: Op, m: seq<Member>)
    requires DistinctOids(m) && InPlace(c, id, g, m) && !op.LoseOp?
    ensures InPlace(c, id, g, Apply(c, id, op, m))
  {
    var x :| x in m && Correct(c, id, x.sub) && MatchesGroup(g, x.sub.registryPrefixes);
    CorrectSurvives(c, id, op, m, x);
  }

  lemma {:induction false} WalkPresent(c: Site, id: string, g: Group, net: Net, m: seq<Member>)
    requires Walk(c, id, g, net, m).check == Present
    ensures InPlace(c, id, g, Walk(c, id, g, net, m).members)
  {
    var x, tail := m[0], m[1..];
    if net.fails(GetSubscription(x.oid)) {
    } else if Ours(c, id, g, x.sub) {
      if x.sub.context == id {
        assert x in m;
      } else {
        assert Patched(x, id) in [Patched(x, id)] + tail;
      }
    } else {
      WalkPresent(c, id, g, net, tail);
      var w := Walk(c, id, g, net, tail).members;
      var y :| y in w && Correct(c, id, y.sub) && MatchesGroup(g, y.sub.registryPrefixes);
      assert y in [x] + w;
    }
  }

  /** A positive answer of the duplicate check is true of the BMC it leaves behind. */
  lemma PresentIsTrue(c: Site, id: string, g: Group, net: Net, m: seq<Member>)
    requires DistinctOids(m) && IsDup(c, id, g, net, m).check == Present
    ensures InPlace(c, id, g, IsDup(c, id, g, net, m).members)
  {
    LoopsAreWalks(c, id, g, net, m);
    WalkPresent(c, id, g, net, m);
  }

  lemma MatchesItsOwn(g: Group)
    ensures MatchesGroup(g, g.Names())
  {
  }

  /** A POST that is taken puts its group in place. */
  lemma PostPutsInPlace(c: Site, id: string, g: Group, net: Net, m: seq<Member>)
    requires Accepts(net)
    ensures InPlace(c, id, g, Post(c, id, g, net, m))
  {
    var x := Member(FreeOid(net.created, m), NewSubscription(c, id, g, net));
    MatchesItsOwn(g);
    assert x in m + [x];
  }

  /** A recorded group is in place when it is recorded, in either half of an iteration. */
  lemma RecordedIsInPlace(c: Site, id: string, g: Group, net: Net, m: seq<Member>)
    requires DistinctOids(m)
    ensures CheckHalf(c, id, g, net, m).record ==> InPlace(c, id, g, CheckHalf(c, id, g, net, m).members)
    ensures PostHalf(c, id, g, net, m).record ==> InPlace(c, id, g, PostHalf(c, id, g, net, m).members)
  {
    if CheckHalf(c, id, g, net, m).record {
      PresentIsTrue(c, id, g, net, m);
    }
    if PostHalf(c, id, g, net, m).record {
      PostPutsInPlace(c, id, g, net, m);
    }
  }

  // ------------------------------------------------ no duplicates pile up

  function Count(c: Site, id: string, g: Group, m: seq<Member>): nat {
    if m == [] then 0
    else (if Ours(c, id, g, m[0].sub) then 1 else 0) + Count(c, id, g, m[1..])
  }

  lemma {:induction false} CountAppend(c: Site, id: string, g: Group, a: seq<Member>, b: seq<Member>)
    ensures Count(c, id, g, a + b) == Count(c, id, g, a) + Count(c, id, g, b)
  {
    if a == [] {
      assert a + b == b;
    } else {
      CountAppend(c, id, g, a[1..], b);
      assert (a + b)[0] == a[0] && (a + b)[1..] == a[1..] + b;
    }
  }

  lemma {:induction false} SweepCount(c: Site, id: string, h: Group, net: Net, m: seq<Member>)
    ensures Count(c, id, h, Sweep(c, id, net, m)) <= Count(c, id, h, m)
  {
    if m == [] {
    } else {
      SweepCount(c, id, h, net, m[1..]);
      CountAppend(c, id, h, [m[0]], Sweep(c, id, net, m[1..]));
    }
  }

  lemma {:induction false} LoseCount(c: Site, id: string, h: Group, m: seq<Member>, oids: set<string>)
    ensures Count(c, id, h, Lose(m, oids)) <= Count(c, id, h, m)
  {
    if m == [] {
    } else {
      LoseCount(c, id, h, m[1..], oids);
      CountAppend(c, id, h, [m[0]], Lose(m[1..], oids));
    }
  }

  lemma {:induction false} WalkCount(c: Site, id: string, g: Group, h: Group, net: Net, m: seq<Member>)
    ensures Count(c, id, h, Walk(c, id, g, net, m).members) <= Count(c, id, h, m)
  {
    if m == [] {
    } else {
      WalkCount(c, id, g, h, net, m[1..]);
      CountAppend(c, id, h, [m[0]], Walk(c, id, g, net, m[1..]).members);
      CountAppend(c, id, h, [Patched(m[0], id)], m[1..]);
    }
  }

  function Max1(n: nat): nat { if n == 0 then 1 else n }

  /** An answer "absent" leaves room for one more, unless a DELETE failed. */
  lemma {:induction false} AbsentLeavesRoom(c: Site, id: string, g: Group, net: Net, m: seq<Member>)
    requires Walk(c, id, g, net, m).check == Absent
    ensures var w := Walk(c, id, g, net, m);
            Count(c, id, g, w.members) + 1 <= Max1(Count(c, id, g, m)) + (if w.stuck then 1 else 0)
  {
    if m == [] || Ours(c, id, g, m[0].sub) {
    } else {
      AbsentLeavesRoom(c, id, g, net, m[1..]);
      CountAppend(c, id, g, [m[0]], Walk(c, id, g, net, m[1..]).members);
    }
  }

  /** The groups of a site have disjoint matches. */
  lemma GroupsAreDisjoint(c: Site, g: Group, h: Group, present: seq<string>)
    requires g in Groups(c) && h in Groups(c) && g != h
    ensures !(MatchesGroup(g, present) && MatchesGroup(h, present))
  {
    if MatchesGroup(TELEMETRY, present) {
      assert "CrayTelemetry" in TELEMETRY.names;
    }
  }

  /** A POST that is taken adds exactly one match, for its own group only. */
  lemma PostCount(c: Site, id: string, g: Group, h: Group, net: Net, m: seq<Member>)
    requires g != h ==> g in Groups(c) && h in Groups(c)
    ensures Count(c, id, h, Post(c, id, g, net, m)) == Count(c, id, h, m) + (if g == h && Accepts(net) then 1 else 0)
  {
    if Accepts(net) {
      var x := Member(FreeOid(net.created, m), NewSubscription(c, id, g, net));
      CountAppend(c, id, h, m, [x]);
      assert [x][1..] == [];
      MatchesItsOwn(g);
      if g != h {
        GroupsAreDisjoint(c, g, h, x.sub.registryPrefixes);
      }
    }
  }

  /** Only a POST for the group itself can add a match. */
  lemma OpCount(c: Site, id: string, h: Group, op: Op, m: seq<Member>)
    requires DistinctOids(m) && h in Groups(c) && (op.PostOp? ==> op.group in Groups(c))
    ensures Count(c, id, h, Apply(c, id, op, m)) <= Count(c, id, h, m) + (if Posts(op, h) then 1 else 0)
  {
    match op
    case PruneOp(net) =>
      LoopsAreWalks(c, id, NilGroup, net, m);
      SweepCount(c, id, h, net, m);
    case CheckOp(_, g, net) =>
      LoopsAreWalks(c, id, g, net, m);
      WalkCount(c, id, g, h, net, m);
    case PostOp(_, g, net) =>
      PostCount(c, id, g, h, net, m);
    case VerifyOp(g, net) =>
      LoopsAreWalks(c, id, g, net, m);
      WalkCount(c, id, g, h, net, m);
    case LoseOp(oids) =>
      LoseCount(c, id, h, m, oids);
  }

  /** A subscription for `g` is created. */
  predicate Posts(op: Op, g: Group) {
    op.PostOp? && op.group == g && Creates(op.net)
  }

  /** The duplicate check of a subscribe goroutine finds group `g` missing. */
  predicate FindsAbsent(c: Site, id: string, g: Group, op: Op, m: seq<Member>) {
    op.CheckOp? && op.group == g && IsDup(c, id, g, op.net, m).check == Absent
  }

  lemma AbsentCount(c: Site, id: string, g: Group, op: Op, m: seq<Member>)
    requires DistinctOids(m) && FindsAbsent(c, id, g, op, m)
    ensures Count(c, id, g, Apply(c, id, op, m)) + 1 <= Max1(Count(c, id, g, m)) + StuckBy(c, id, g, op, m)
  {
    LoopsAreWalks(c, id, g, op.net, m);
    AbsentLeavesRoom(c, id, g, op.net, m);
  }

  // ------------------------------------------------ whole runs against one BMC

  function ApplyAll(c: Site, id: string, ops: seq<Op>, m: seq<Member>): seq<Member>
    decreases |ops|
  {
    if ops == [] then m
    else
      var last := |ops| - 1;
      Apply(c, id, ops[last], ApplyAll(c, id, ops[..last], m))
  }

  /** DELETEs of a run that failed straight after a failed PATCH, for group `g`. */
  function StuckDeletes(c: Site, id: string, g: Group, ops: seq<Op>, m: seq<Member>): nat
    decreases |ops|
  {
    if ops == [] then 0
    else
      var last := |ops| - 1;
      StuckDeletes(c, id, g, ops[..last], m) + StuckBy(c, id, g, ops[last], ApplyAll(c, id, ops[..last], m))
  }

  predicate SiteOps(c: Site, ops: seq<Op>) {
    forall i | 0 <= i < |ops| :: ops[i].PostOp? ==> ops[i].group in Groups(c)
  }

  /** The goroutines whose answer "absent" for `g` no later POST for `g` has overtaken. */
  function Clear(c: Site, id: string, g: Group, ops: seq<Op>, m: seq<Member>): set<nat>
    decreases |ops|
  {
    if ops == [] then {}
    else
      var last := |ops| - 1;
      var before, op := Clear(c, id, g, ops[..last], m), ops[last];
      if Posts(op, g) then {}
      else if FindsAbsent(c, id, g, op, ApplyAll(c, id, ops[..last], m)) then before + {op.who}
      else if (op.CheckOp? || op.PostOp?) && op.group == g then before - {op.who}
      else before
  }

  /** POSTs of a run that created a subscription for `g` although their check had been overtaken. */
  function OvertakenPosts(c: Site, id: string, g: Group, ops: seq<Op>, m: seq<Member>): nat
    decreases |ops|
  {
    if ops == [] then 0
    else
      var last := |ops| - 1;
      OvertakenPosts(c, id, g, ops[..last], m) +
      (if Posts(ops[last], g) && ops[last].who !in Clear(c, id, g, ops[..last], m) then 1 else 0)
  }

  lemma {:induction false} RunKeepsDistinctOids(c: Site, id: string, ops: seq<Op>, m: seq<Member>)
    requires DistinctOids(m)
    ensures DistinctOids(ApplyAll(c, id, ops, m))
    decreases |ops|
  {
    if ops == [] {
    } else {
      var last := |ops| - 1;
      RunKeepsDistinctOids(c, id, ops[..last], m);
      OpKeepsDistinctOids(c, id, ops[last], ApplyAll(c, id, ops[..last], m));
    }
  }

  function Bound(c: Site, id: string, g: Group, ops: seq<Op>, m: seq<Member>): nat {
    Max1(Count(c, id, g, m)) + StuckDeletes(c, id, g, ops, m) + OvertakenPosts(c, id, g, ops, m)
  }

  /** Over any run of operations with arbitrary failures and in any order, our subscriptions for a group
      never exceed max(1, initial count), plus the DELETEs that failed straight after a failed PATCH, plus
      the POSTs whose check was overtaken by another POST for the group.  While some answer "absent"
      stands there is room for one more. */
  lemma {:induction false} DuplicatesAreBounded(c: Site, id: string, g: Group, ops: seq<Op>, m: seq<Member>)
    requires DistinctOids(m) && g in Groups(c) && SiteOps(c, ops)
    ensures Count(c, id, g, ApplyAll(c, id, ops, m)) <= Bound(c, id, g, ops, m)
    ensures Clear(c, id, g, ops, m) != {} ==> Count(c, id, g, ApplyAll(c, id, ops, m)) + 1 <= Bound(c, id, g, ops, m)
    decreases |ops|
  {
    if ops == [] {
    } else {
      var last := |ops| - 1;
      var n, op := ApplyAll(c, id, ops[..last], m), ops[last];
      DuplicatesAreBounded(c, id, g, ops[..last], m);
      RunKeepsDistinctOids(c, id, ops[..last], m);
      OpCount(c, id, g, op, n);
      if FindsAbsent(c, id, g, op, n) {
        AbsentCount(c, id, g, op, n);
      }
    }
  }

  /** What "overtaken" means: the answer "absent" that goroutine `h` got at position `j` stands at position
      `k` if and only if no subscription for the group was created in between. */
  lemma {:induction false} ClearIff(c: Site, id: string, g: Group, ops: seq<Op>, m: seq<Member>, j: nat, k: nat, h: nat)
    requires j < k <= |ops| && FindsAbsent(c, id, g, ops[j], ApplyAll(c, id, ops[..j], m)) && ops[j].who == h
    requires forall i | j < i < k && (ops[i].CheckOp? || ops[i].PostOp?) && ops[i].group == g :: ops[i].who != h
    ensures h in Clear(c, id, g, ops[..k], m) <==> forall i | j < i < k :: !Posts(ops[i], g)
    decreases k
  {
    var last := k - 1;
    assert ops[..k][..last] == ops[..last] && ops[..k][last] == ops[last];
    if j == last {
    } else {
      ClearIff(c, id, g, ops, m, j, last, h);
    }
  }

  /** Every POST follows its own check directly: iterations that do not overlap. */
  predicate Serial(c: Site, id: string, g: Group, ops: seq<Op>, m: seq<Member>)
    decreases |ops|
  {
    ops == [] ||
    var last := |ops| - 1;
    && Serial(c, id, g, ops[..last], m)
    && (Posts(ops[last], g) ==> EndsInCheck(c, id, g, ops[..last], m, ops[last].who))
  }

  predicate EndsInCheck(c: Site, id: string, g: Group, ops: seq<Op>, m: seq<Member>, h: nat) {
    && ops != []
    && var last := |ops| - 1;
       FindsAbsent(c, id, g, ops[last], ApplyAll(c, id, ops[..last], m)) && ops[last].who == h
  }

  lemma {:induction false} SerialIsClear(c: Site, id: string, g: Group, ops: seq<Op>, m: seq<Member>)
    requires Serial(c, id, g, ops, m)
    ensures OvertakenPosts(c, id, g, ops, m) == 0
    decreases |ops|
  {
    if ops == [] {
    } else {
      SerialIsClear(c, id, g, ops[..|ops| - 1], m);
    }
  }

  /** In runs of passes that do not overlap only the failed DELETEs count. */
  lemma SerialRunsAreBounded(c: Site, id: string, g: Group, ops: seq<Op>, m: seq<Member>)
    requires DistinctOids(m) && g in Groups(c) && SiteOps(c, ops) && Serial(c, id, g, ops, m)
    ensures Count(c, id, g, ApplyAll(c, id, ops, m)) <= Max1(Count(c, id, g, m)) + StuckDeletes(c, id, g, ops, m)
  {
    DuplicatesAreBounded(c, id, g, ops, m);
    SerialIsClear(c, id, g, ops, m);
  }

  lemma ApplyTwo(c: Site, id: string, g: Group, a: Op, b: Op, m: seq<Member>)
    ensures ApplyAll(c, id, [a, b], m) == Apply(c, id, b, Apply(c, id, a, m))
    ensures StuckDeletes(c, id, g, [a, b], m) == StuckBy(c, id, g, a, m) + StuckBy(c, id, g, b, Apply(c, id, a, m))
  {
    assert [a, b][..1] == [a] && [a][..0] == [];
    assert ApplyAll(c, id, [], m) == m && StuckDeletes(c, id, g, [], m) == 0;
    assert ApplyAll(c, id, [a], m) == Apply(c, id, a, m);
  }

  /** The bound is reached: a DELETE that fails after a failed PATCH lets the POST add a second match. */
  lemma BoundIsReached(c: Site, id: string, stale: string, net: Net)
    requires stale != id && net.status == 201
    requires forall r :: net.fails(r) <==> r == PatchContext("1") || r == DeleteSubscription("1")
    ensures var m := [Member("1", Subscription(stale, c.destination(id), [], "Redfish", []))];
            var ops := [CheckOp(0, NilGroup, net), PostOp(0, NilGroup, net)];
            && Count(c, id, NilGroup, m) == 1 && StuckDeletes(c, id, NilGroup, ops, m) == 1
            && Count(c, id, NilGroup, ApplyAll(c, id, ops, m)) == 2
  {
    var m := [Member("1", Subscription(stale, c.destination(id), [], "Redfish", []))];
    assert m[1..] == [];
    LoopsAreWalks(c, id, NilGroup, net, m);
    assert Walk(c, id, NilGroup, net, m) == Scan(Absent, m, true);
    ApplyTwo(c, id, NilGroup, CheckOp(0, NilGroup, net), PostOp(0, NilGroup, net), m);
    PostCount(c, id, NilGroup, NilGroup, net, m);
  }
}
