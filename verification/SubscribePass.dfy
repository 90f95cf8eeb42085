/** A whole subscribe pass (the goroutine body of `rfSubscribe`) and what it achieves when no
    request fails (cmd/hmcollector/rf_subscriptions.go). */
module SubscribePass {
  import opened Subscriptions
  import opened SubscriptionFacts
  import opened PrefixGroups

  /** What a pass leaves behind: the BMC and the prefix list of its record. */
  datatype Outcome = Outcome(members: seq<Member>, recorded: seq<Group>)

  function GroupsFrom(c: Site, id: string, gs: seq<Group>, nets: seq<Net>, o: Outcome): Outcome
    requires |gs| == |nets|
    decreases |gs|
  {
    if gs == [] then o
    else
      var it := SubscribeGroup(c, id, gs[0], nets[0], o.members);
      GroupsFrom(c, id, gs[1..], nets[1..],
                 Outcome(it.members, if it.record then AppendUnique(gs[0], o.recorded) else o.recorded))
  }

  function Pass(c: Site, id: string, pruneNet: Net, nets: seq<Net>, m: seq<Member>): Outcome
    requires |nets| == |Groups(c)|
  {
    GroupsFrom(c, id, Groups(c), nets, Outcome(Prune(c, id, pruneNet, m), []))
  }

  // ------------------------------------------------ the reference

  ghost predicate Reliable(net: Net) {
    forall r: Request :: !net.fails(r)
  }

  ghost predicate AllReliable(nets: seq<Net>) {
    forall i | 0 <= i < |nets| :: Reliable(nets[i])
  }

  /** The BMC without the subscriptions of moved hardware. */
  function Keep(c: Site, id: string, m: seq<Member>): seq<Member> {
    if m == [] then []
    else if ForWrongXname(c, id, m[0].sub) then Keep(c, id, m[1..])
    else [m[0]] + Keep(c, id, m[1..])
  }

  /** Position of the first match of a group, or the length if there is none. */
  function First(c: Site, id: string, g: Group, m: seq<Member>): (i: nat)
    ensures i <= |m|
    ensures i < |m| ==> Ours(c, id, g, m[i].sub)
    ensures forall j | 0 <= j < i :: !Ours(c, id, g, m[j].sub)
  {
    if m == [] || Ours(c, id, g, m[0].sub) then 0 else 1 + First(c, id, g, m[1..])
  }

  /** The goal for one group: its first match carries our name; a missing group is appended
      if the BMC takes it. */
  function Ensure(c: Site, id: string, g: Group, net: Net, m: seq<Member>): seq<Member> {
    var i := First(c, id, g, m);
    if i < |m| then m[i := Patched(m[i], id)] else Post(c, id, g, net, m)
  }

  function EnsureAll(c: Site, id: string, gs: seq<Group>, nets: seq<Net>, m: seq<Member>): seq<Member>
    requires |gs| == |nets|
    decreases |gs|
  {
    if gs == [] then m else EnsureAll(c, id, gs[1..], nets[1..], Ensure(c, id, gs[0], nets[0], m))
  }

  function Reconciled(c: Site, id: string, nets: seq<Net>, m: seq<Member>): seq<Member>
    requires |nets| == |Groups(c)|
  {
    EnsureAll(c, id, Groups(c), nets, Keep(c, id, m))
  }

  // ------------------------------------------------ a failure-free pass reconciles

  predicate NoneWrong(c: Site, id: string, m: seq<Member>) {
    forall i | 0 <= i < |m| :: !ForWrongXname(c, id, m[i].sub)
  }

  lemma {:induction false} SweepKeepsTheRight(c: Site, id: string, net: Net, m: seq<Member>)
    requires Reliable(net)
    ensures Sweep(c, id, net, m) == Keep(c, id, m)
    ensures NoneWrong(c, id, Keep(c, id, m))
  {
    if m == [] {
    } else {
      SweepKeepsTheRight(c, id, net, m[1..]);
    }
  }

  lemma {:induction false} NothingToPrune(c: Site, id: string, m: seq<Member>)
    requires NoneWrong(c, id, m)
    ensures Keep(c, id, m) == m
  {
    if m == [] {
    } else {
      assert forall i | 0 <= i < |m[1..]| :: m[1..][i] == m[i + 1];
      NothingToPrune(c, id, m[1..]);
    }
  }

  lemma PruneIsKeep(c: Site, id: string, net: Net, m: seq<Member>)
    requires DistinctOids(m) && Reliable(net)
    ensures Prune(c, id, net, m) == Keep(c, id, m)
    ensures NoneWrong(c, id, Keep(c, id, m))
    ensures DistinctOids(Keep(c, id, m))
  {
    LoopsAreWalks(c, id, NilGroup, net, m);
    SweepKeepsTheRight(c, id, net, m);
    OpKeepsDistinctOids(c, id, PruneOp(net), m);
    if !c.prune {
      NothingToPrune(c, id, m);
    }
  }

  lemma ConsUpdate(x: Member, tail: seq<Member>, i: nat, y: Member)
    requires i < |tail|
    ensures [x] + tail[i := y] == ([x] + tail)[i + 1 := y]
  {
  }

  lemma {:induction false} WalkIsFirst(c: Site, id: string, g: Group, net: Net, m: seq<Member>)
    requires Reliable(net) && NoneWrong(c, id, m)
    ensures var i := First(c, id, g, m);
            Walk(c, id, g, net, m) ==
              if i < |m| then Scan(Present, m[i := Patched(m[i], id)], false) else Scan(Absent, m, false)
  {
    if m == [] {
    } else {
      var x, tail := m[0], m[1..];
      assert m == [x] + tail;
      if Ours(c, id, g, x.sub) {
        assert m[0 := Patched(x, id)] == [Patched(x, id)] + tail;
        assert x.sub.context == id ==> Patched(x, id) == x;
      } else {
        assert forall i | 0 <= i < |tail| :: tail[i] == m[i + 1];
        WalkIsFirst(c, id, g, net, tail);
        var i := First(c, id, g, tail);
        if i < |tail| {
          ConsUpdate(x, tail, i, Patched(tail[i], id));
        }
      }
    }
  }

  /** A whole iteration is a check, followed by a POST if the answer is "absent". */
  lemma IterationIsTwoOps(c: Site, id: string, g: Group, net: Net, m: seq<Member>)
    ensures var m1 := Apply(c, id, CheckOp(0, g, net), m);
            SubscribeGroup(c, id, g, net, m) ==
              if IsDup(c, id, g, net, m).check == Absent then PostHalf(c, id, g, net, m1) else CheckHalf(c, id, g, net, m)
  {
  }

  lemma IterationKeeps(c: Site, id: string, g: Group, net: Net, m: seq<Member>)
    requires DistinctOids(m)
    ensures var it := SubscribeGroup(c, id, g, net, m);
            DistinctOids(it.members) && (it.record ==> InPlace(c, id, g, it.members))
  {
    var m1 := Apply(c, id, CheckOp(0, g, net), m);
    IterationIsTwoOps(c, id, g, net, m);
    OpKeepsDistinctOids(c, id, CheckOp(0, g, net), m);
    OpKeepsDistinctOids(c, id, PostOp(0, g, net), m1);
    RecordedIsInPlace(c, id, g, net, m);
    RecordedIsInPlace(c, id, g, net, m1);
  }

  lemma IterationKeepsOthers(c: Site, id: string, g: Group, h: Group, net: Net, m: seq<Member>)
    requires DistinctOids(m) && InPlace(c, id, h, m)
    ensures InPlace(c, id, h, SubscribeGroup(c, id, g, net, m).members)
  {
    var m1 := Apply(c, id, CheckOp(0, g, net), m);
    IterationIsTwoOps(c, id, g, net, m);
    OpKeepsDistinctOids(c, id, CheckOp(0, g, net), m);
    InPlaceSurvives(c, id, h, CheckOp(0, g, net), m);
    InPlaceSurvives(c, id, h, PostOp(0, g, net), m1);
  }

  lemma GroupIsEnsure(c: Site, id: string, g: Group, net: Net, m: seq<Member>)
    requires DistinctOids(m) && Reliable(net) && NoneWrong(c, id, m)
    ensures SubscribeGroup(c, id, g, net, m).members == Ensure(c, id, g, net, m)
    ensures NoneWrong(c, id, Ensure(c, id, g, net, m)) && DistinctOids(Ensure(c, id, g, net, m))
    ensures SubscribeGroup(c, id, g, net, m).record <==> First(c, id, g, m) < |m| || Accepts(net)
  {
    LoopsAreWalks(c, id, g, net, m);
    WalkIsFirst(c, id, g, net, m);
    IterationKeeps(c, id, g, net, m);
  }

  lemma {:induction false} GroupsAreEnsured(c: Site, id: string, gs: seq<Group>, nets: seq<Net>, o: Outcome)
    requires |gs| == |nets| && AllReliable(nets)
    requires DistinctOids(o.members) && NoneWrong(c, id, o.members)
    ensures GroupsFrom(c, id, gs, nets, o).members == EnsureAll(c, id, gs, nets, o.members)
    ensures NoneWrong(c, id, EnsureAll(c, id, gs, nets, o.members))
    ensures DistinctOids(EnsureAll(c, id, gs, nets, o.members))
    decreases |gs|
  {
    if gs == [] {
    } else {
      assert forall i | 0 <= i < |nets[1..]| :: nets[1..][i] == nets[i + 1];
      GroupIsEnsure(c, id, gs[0], nets[0], o.members);
      var it := SubscribeGroup(c, id, gs[0], nets[0], o.members);
      GroupsAreEnsured(c, id, gs[1..], nets[1..],
                       Outcome(it.members, if it.record then AppendUnique(gs[0], o.recorded) else o.recorded));
    }
  }

  /** A failure-free pass takes any BMC to exactly: wrong-xname subscriptions dropped, the first
      match of each group carrying our name, each missing accepted group appended. */
  lemma FailureFreePass(c: Site, id: string, pruneNet: Net, nets: seq<Net>, m: seq<Member>)
    requires |nets| == |Groups(c)| && Reliable(pruneNet) && AllReliable(nets) && DistinctOids(m)
    ensures Pass(c, id, pruneNet, nets, m).members == Reconciled(c, id, nets, m)
    ensures NoneWrong(c, id, Reconciled(c, id, nets, m)) && DistinctOids(Reconciled(c, id, nets, m))
  {
    PruneIsKeep(c, id, pruneNet, m);
    GroupsAreEnsured(c, id, Groups(c), nets, Outcome(Keep(c, id, m), []));
  }

  // ------------------------------------------------ a second pass changes nothing

  /** After a group has been handled it stays handled while the other group is. */
  predicate Named(c: Site, id: string, g: Group, m: seq<Member>) {
    First(c, id, g, m) < |m| && m[First(c, id, g, m)].sub.context == id
  }

  lemma FirstIs(c: Site, id: string, g: Group, m: seq<Member>, i: nat)
    requires i < |m| && Ours(c, id, g, m[i].sub) && forall j | 0 <= j < i :: !Ours(c, id, g, m[j].sub)
    ensures First(c, id, g, m) == i
  {
  }

  lemma NoFirst(c: Site, id: string, g: Group, m: seq<Member>)
    requires forall j | 0 <= j < |m| :: !Ours(c, id, g, m[j].sub)
    ensures First(c, id, g, m) == |m|
  {
  }

  lemma EnsureSettles(c: Site, id: string, g: Group, net: Net, m: seq<Member>)
    ensures var n := Ensure(c, id, g, net, m);
            if First(c, id, g, m) < |m| || Accepts(net) then Named(c, id, g, n)
            else n == m && First(c, id, g, n) == |n|
  {
    var i := First(c, id, g, m);
    var n := Ensure(c, id, g, net, m);
    if i < |m| {
      FirstIs(c, id, g, n, i);
    } else if Accepts(net) {
      MatchesItsOwn(g);
      assert forall j | 0 <= j < |m| :: n[j] == m[j];
      FirstIs(c, id, g, n, |m|);
    }
  }

  /** Handling a group with disjoint matches neither settles nor unsettles another one. */
  lemma EnsureKeepsOther(c: Site, id: string, g: Group, h: Group, net: Net, m: seq<Member>)
    requires g in Groups(c) && h in Groups(c) && g != h
    ensures var n := Ensure(c, id, g, net, m);
            && (Named(c, id, h, m) <==> Named(c, id, h, n))
            && (First(c, id, h, m) == |m| <==> First(c, id, h, n) == |n|)
  {
    var i, k := First(c, id, g, m), First(c, id, h, m);
    var n := Ensure(c, id, g, net, m);
    if i < |m| {
      GroupsAreDisjoint(c, g, h, m[i].sub.registryPrefixes);
      assert forall j | 0 <= j < |m| :: Ours(c, id, h, n[j].sub) == Ours(c, id, h, m[j].sub);
    } else if Accepts(net) {
      MatchesItsOwn(g);
      GroupsAreDisjoint(c, g, h, n[|m|].sub.registryPrefixes);
      assert forall j | 0 <= j < |m| :: n[j] == m[j];
    }
    if k < |m| {
      FirstIs(c, id, h, n, k);
    } else {
      NoFirst(c, id, h, n);
    }
  }

  lemma EnsureAllUnfolds(c: Site, id: string, nets: seq<Net>, m: seq<Member>)
    requires |nets| == |Groups(c)|
    ensures EnsureAll(c, id, Groups(c), nets, m) ==
              if c.streaming then Ensure(c, id, TELEMETRY, nets[1], Ensure(c, id, NilGroup, nets[0], m))
              else Ensure(c, id, NilGroup, nets[0], m)
  {
    var m1 := Ensure(c, id, NilGroup, nets[0], m);
    if c.streaming {
      assert Groups(c)[1..] == [TELEMETRY] && nets[1..][0] == nets[1];
      assert EnsureAll(c, id, [TELEMETRY], nets[1..], m1) == Ensure(c, id, TELEMETRY, nets[1], m1);
    }
  }

  /** Handled: the group is in place under our name, or it is missing altogether. */
  predicate Handled(c: Site, id: string, g: Group, m: seq<Member>) {
    Named(c, id, g, m) || First(c, id, g, m) == |m|
  }

  /** Every group is handled by the pass. */
  lemma ReconciledIsHandled(c: Site, id: string, nets: seq<Net>, m: seq<Member>)
    requires |nets| == |Groups(c)|
    ensures forall g | g in Groups(c) :: Handled(c, id, g, Reconciled(c, id, nets, m))
  {
    var m0 := Keep(c, id, m);
    var m1 := Ensure(c, id, NilGroup, nets[0], m0);
    EnsureAllUnfolds(c, id, nets, m0);
    EnsureSettles(c, id, NilGroup, nets[0], m0);
    assert Handled(c, id, NilGroup, m1);
    if c.streaming {
      EnsureSettles(c, id, TELEMETRY, nets[1], m1);
      EnsureKeepsOther(c, id, TELEMETRY, NilGroup, nets[1], m1);
    }
  }

  /** Nothing is left to do for a group: it is there, or the BMC refuses it. */
  predicate Idle(c: Site, id: string, g: Group, net: Net, m: seq<Member>) {
    First(c, id, g, m) < |m| || !Accepts(net)
  }

  lemma IdleIffUnchanged(c: Site, id: string, g: Group, net: Net, m: seq<Member>)
    requires Handled(c, id, g, m)
    ensures var n := Ensure(c, id, g, net, m);
            if Idle(c, id, g, net, m) then n == m else |n| == |m| + 1
  {
    var i := First(c, id, g, m);
    if i < |m| {
      assert Patched(m[i], id) == m[i];
      assert m[i := Patched(m[i], id)] == m;
    }
  }

  /** A second failure-free pass changes nothing if and only if the BMC still refuses every
      group that the first one left missing. */
  lemma SecondPassIsIdle(c: Site, id: string, n0: Net, nets: seq<Net>, n0': Net, nets': seq<Net>, m: seq<Member>)
    requires |nets| == |nets'| == |Groups(c)| && DistinctOids(m)
    requires Reliable(n0) && AllReliable(nets) && Reliable(n0') && AllReliable(nets')
    ensures var after := Pass(c, id, n0, nets, m).members;
            Pass(c, id, n0', nets', after).members == after <==>
            forall k | 0 <= k < |nets'| :: Idle(c, id, Groups(c)[k], nets'[k], after)
  {
    FailureFreePass(c, id, n0, nets, m);
    var after := Reconciled(c, id, nets, m);
    FailureFreePass(c, id, n0', nets', after);
    NothingToPrune(c, id, after);
    ReconciledIsHandled(c, id, nets, m);
    EnsureAllUnfolds(c, id, nets', after);
    IdlePass(c, id, nets', after);
  }

  lemma IdlePass(c: Site, id: string, nets: seq<Net>, m: seq<Member>)
    requires |nets| == |Groups(c)| && forall g | g in Groups(c) :: Handled(c, id, g, m)
    ensures EnsureAll(c, id, Groups(c), nets, m) == m <==>
            forall k | 0 <= k < |nets| :: Idle(c, id, Groups(c)[k], nets[k], m)
  {
    EnsureAllUnfolds(c, id, nets, m);
    var gs := Groups(c);
    assert gs[0] == NilGroup;
    var m1 := Ensure(c, id, NilGroup, nets[0], m);
    IdleIffUnchanged(c, id, NilGroup, nets[0], m);
    if c.streaming {
      assert gs[1] == TELEMETRY;
      EnsureKeepsOther(c, id, NilGroup, TELEMETRY, nets[0], m);
      IdleIffUnchanged(c, id, TELEMETRY, nets[1], m1);
    }
  }

  // ------------------------------------------------ what a pass records, whatever fails

  lemma {:induction false} RecordedStaysTrue(c: Site, id: string, gs: seq<Group>, nets: seq<Net>, o: Outcome)
    requires |gs| == |nets| && DistinctOids(o.members) && (forall h | h in o.recorded :: InPlace(c, id, h, o.members))
    ensures var p := GroupsFrom(c, id, gs, nets, o);
            DistinctOids(p.members) && forall h | h in p.recorded :: InPlace(c, id, h, p.members)
    decreases |gs|
  {
    if gs == [] {
    } else {
      var it := SubscribeGroup(c, id, gs[0], nets[0], o.members);
      IterationKeeps(c, id, gs[0], nets[0], o.members);
      var recorded := if it.record then AppendUnique(gs[0], o.recorded) else o.recorded;
      forall h | h in o.recorded ensures InPlace(c, id, h, it.members) {
        IterationKeepsOthers(c, id, gs[0], h, nets[0], o.members);
      }
      RecordedStaysTrue(c, id, gs[1..], nets[1..], Outcome(it.members, recorded));
    }
  }

  /** Whatever fails, every group in the prefix list at the end of a pass is in place on the BMC. */
  lemma PassRecordsTruth(c: Site, id: string, pruneNet: Net, nets: seq<Net>, m: seq<Member>)
    requires |nets| == |Groups(c)| && DistinctOids(m)
    ensures var p := Pass(c, id, pruneNet, nets, m);
            forall h | h in p.recorded :: InPlace(c, id, h, p.members)
  {
    OpKeepsDistinctOids(c, id, PruneOp(pruneNet), m);
    RecordedStaysTrue(c, id, Groups(c), nets, Outcome(Prune(c, id, pruneNet, m), []));
  }

  // ------------------------------------------------ a verify pass

  /** BMC after a verify pass, and whether some group was missing. */
  function VerifyFrom(c: Site, id: string, gs: seq<Group>, nets: seq<Net>, m: seq<Member>): (seq<Member>, bool)
    requires |gs| == |nets|
    decreases |gs|
  {
    if gs == [] then (m, false)
    else
      var scan := IsDup(c, id, gs[0], nets[0], m);
      var rest := VerifyFrom(c, id, gs[1..], nets[1..], scan.members);
      (rest.0, scan.check != Present || rest.1)
  }

  /** No subscription calls back to this endpoint for the group. */
  predicate Missing(c: Site, id: string, g: Group, m: seq<Member>) {
    forall x | x in m :: !(x.sub.destination == c.destination(id) && MatchesGroup(g, x.sub.registryPrefixes))
  }

  /** Whatever fails: a verify pass that reports nothing leaves every recorded group in place under our name. */
  lemma {:induction false} VerifyIsSound(c: Site, id: string, gs: seq<Group>, nets: seq<Net>, m: seq<Member>)
    requires |gs| == |nets| && DistinctOids(m)
    ensures var v := VerifyFrom(c, id, gs, nets, m);
            && DistinctOids(v.0)
            && (forall h | InPlace(c, id, h, m) :: InPlace(c, id, h, v.0))
            && (!v.1 ==> forall g | g in gs :: InPlace(c, id, g, v.0))
    decreases |gs|
  {
    if gs == [] {
    } else {
      var n := IsDup(c, id, gs[0], nets[0], m).members;
      OpKeepsDistinctOids(c, id, VerifyOp(gs[0], nets[0]), m);
      VerifyIsSound(c, id, gs[1..], nets[1..], n);
      forall h | InPlace(c, id, h, m) ensures InPlace(c, id, h, n) {
        InPlaceSurvives(c, id, h, VerifyOp(gs[0], nets[0]), m);
      }
      if IsDup(c, id, gs[0], nets[0], m).check == Present {
        PresentIsTrue(c, id, gs[0], nets[0], m);
      }
    }
  }

  lemma MissingIsNoFirst(c: Site, id: string, g: Group, m: seq<Member>)
    ensures First(c, id, g, m) == |m| <==> Missing(c, id, g, m)
  {
  }

  /** A reliable check changes contexts only, so what is missing for other groups stays so. */
  lemma ReliableCheck(c: Site, id: string, g: Group, net: Net, m: seq<Member>)
    requires DistinctOids(m) && Reliable(net) && NoneWrong(c, id, m)
    ensures var scan := IsDup(c, id, g, net, m);
            && (scan.check == Present <==> !Missing(c, id, g, m))
            && NoneWrong(c, id, scan.members) && DistinctOids(scan.members)
            && forall h :: Missing(c, id, h, scan.members) <==> Missing(c, id, h, m)
  {
    LoopsAreWalks(c, id, g, net, m);
    WalkIsFirst(c, id, g, net, m);
    MissingIsNoFirst(c, id, g, m);
    OpKeepsDistinctOids(c, id, VerifyOp(g, net), m);
    var i := First(c, id, g, m);
    if i < |m| {
      SameTargets(c, id, m, i);
    }
  }

  lemma SameTargets(c: Site, id: string, m: seq<Member>, i: nat)
    requires i < |m|
    ensures forall h :: Missing(c, id, h, m[i := Patched(m[i], id)]) <==> Missing(c, id, h, m)
  {
    var n := m[i := Patched(m[i], id)];
    forall h ensures Missing(c, id, h, n) <==> Missing(c, id, h, m) {
      assert forall k | 0 <= k < |m| :: m[k] in m && n[k] in n;
      assert forall k | 0 <= k < |m| :: Ours(c, id, h, n[k].sub) == Ours(c, id, h, m[k].sub);
    }
  }

  /** Without failures a verify pass reports a loss if and only if some recorded group is missing. */
  lemma {:induction false} VerifyIff(c: Site, id: string, gs: seq<Group>, nets: seq<Net>, m: seq<Member>)
    requires |gs| == |nets| && AllReliable(nets) && DistinctOids(m) && NoneWrong(c, id, m)
    ensures VerifyFrom(c, id, gs, nets, m).1 <==> exists g | g in gs :: Missing(c, id, g, m)
    decreases |gs|
  {
    if gs == [] {
    } else {
      assert forall i | 0 <= i < |nets[1..]| :: nets[1..][i] == nets[i + 1];
      ReliableCheck(c, id, gs[0], nets[0], m);
      VerifyIff(c, id, gs[1..], nets[1..], IsDup(c, id, gs[0], nets[0], m).members);
      assert gs == [gs[0]] + gs[1..];
    }
  }
}
