/** Bounded self-repair: a subscription that a BMC loses comes back within 21 scans. */
module ReconcilerRepair {
  import opened Basics
  import opened Subscriptions
  import opened SubscriptionFacts
  import opened PrefixGroups
  import opened Reconciler
  import opened ReconcilerSafety
  import opened ReconcilerHistory

  /** All queued work has been done. */
  predicate Drained(s: State) {
    !s.scanning && s.pending == [] && s.verify == [] && s.subscribers == map[] && s.verifiers == map[]
  }

  /** What a repair needs of one step: scans start only when the work of the previous scan is done and
      still list the endpoint, the BMC loses nothing more, and the iteration for the lost group
      meets no failure and no refusal.  Verify passes and prunes may fail. */
  ghost predicate Favours(c: Machine, s: State, l: Label, id: string, gr: Group)
    requires Enabled(c, s, l)
  {
    && (l.ScanStart? ==> Drained(s) && id in l.snapshot)
    && (l.Forget? ==> l.id != id)
    && ((l.RunCheck? || l.RunPost?) && s.cells[l.gen].id == id && s.subscribers[l.gen].todo[0] == gr ==>
          (forall r :: !l.net.fails(r)) && Accepts(l.net))
  }

  ghost predicate Favourable(c: Machine, s: State, ls: seq<Label>, id: string, gr: Group)
    requires Runs(c, s, ls)
    decreases |ls|
  {
    ls == [] ||
    var last := |ls| - 1;
    Favourable(c, s, ls[..last], id, gr) && Favours(c, After(c, s, ls[..last]), ls[last], id, gr)
  }

  // ------------------------------------------------ phases of a repair
  // `m` is the scan that sends the endpoint to verification; `g` its current generation.

  /** The group is recorded and the verifying scan has not visited the endpoint yet. */
  predicate Waiting(s: State, id: string, g: nat, gr: Group, m: nat)
    requires g < |s.cells|
  {
    && gr in s.cells[g].prefixes && s.cells[g].status == COMPLETE && !Owned(s, g)
    && (s.scans < m || (s.scans == m && s.scanning && id in s.todo))
  }

  /** A verify goroutine that will still check the group. */
  predicate WillCheck(v: Verifier, g: nat, gr: Group) {
    v.gen == g && (v.Verifying? ==> gr in v.todo)
  }

  predicate InCheck(s: State, g: nat, gr: Group, m: nat)
    requires g < |s.cells|
  {
    && gr in s.cells[g].prefixes && s.cells[g].status == COMPLETE && !Owned(s, g) && s.scans <= m
    && (s.sending == ToVerify(g) || g in s.verify || exists v | v in s.verifiers :: WillCheck(s.verifiers[v], g, gr))
  }

  predicate Flagged(s: State, id: string, g: nat, m: nat)
    requires g < |s.cells|
  {
    && s.cells[g].status == ERROR && !Owned(s, g)
    && (s.scans < m + 1 || (s.scans == m + 1 && s.scanning && id in s.todo))
  }

  /** A subscribe pass that will still handle the group. */
  predicate InRepair(s: State, g: nat, gr: Group, m: nat) {
    && s.scans <= m + 1
    && (Fresh(s, g) || (g in s.subscribers && !s.subscribers[g].Pruning? && gr in s.subscribers[g].todo))
  }

  predicate Moving(s: State, id: string, gr: Group, m: nat) {
    && id in s.current && s.current[id] < |s.cells|
    && var g := s.current[id];
       Waiting(s, id, g, gr, m) || InCheck(s, g, gr, m) || Flagged(s, id, g, m) || InRepair(s, g, gr, m)
  }

  ghost predicate OnTrack(c: Machine, s: State, id: string, gr: Group, m: nat) {
    InPlace(c.site, id, gr, BmcOf(s, id)) || Moving(s, id, gr, m)
  }

  // ------------------------------------------------ the repairing iteration

  lemma {:induction false} ReliableWalk(c: Site, id: string, g: Group, net: Net, m: seq<Member>)
    requires forall r :: !net.fails(r)
    ensures Walk(c, id, g, net, m).check != CheckError
  {
    if m == [] {
    } else {
      ReliableWalk(c, id, g, net, m[1..]);
    }
  }

  /** A check without failures finds the group, fixes it, or calls for the POST. */
  lemma CheckRepairs(c: Site, id: string, g: Group, net: Net, m: seq<Member>)
    requires DistinctOids(m) && forall r :: !net.fails(r)
    ensures var out := CheckHalf(c, id, g, net, m);
            out.status == None || (out.record && InPlace(c, id, g, out.members))
  {
    LoopsAreWalks(c, id, g, net, m);
    ReliableWalk(c, id, g, net, m);
    RecordedIsInPlace(c, id, g, net, m);
  }

  /** A group iteration without failures puts the group in place. */
  lemma IterationRepairs(c: Site, id: string, g: Group, net: Net, m: seq<Member>)
    requires DistinctOids(m) && (forall r :: !net.fails(r)) && Accepts(net)
    ensures InPlace(c, id, g, SubscribeGroup(c, id, g, net, m).members)
    ensures SubscribeGroup(c, id, g, net, m).record
  {
    CheckRepairs(c, id, g, net, m);
    PostPutsInPlace(c, id, g, net, CheckHalf(c, id, g, net, m).members);
  }

  // ------------------------------------------------ one step

  lemma InPlaceStays(c: Machine, s: State, l: Label, id: string, gr: Group)
    requires Inv(c, s) && Enabled(c, s, l) && !(l.Forget? && l.id == id)
    requires InPlace(c.site, id, gr, BmcOf(s, id))
    ensures InPlace(c.site, id, gr, BmcOf(Do(c, s, l), id))
  {
    StepOnBmc(c, s, l, id);
    var op := OpOn(c, s, l, id);
    if op.Some? {
      InPlaceSurvives(c.site, id, gr, op.value, BmcOf(s, id));
    }
  }

  /** The scan passes an endpoint by, unless this was the last chance of ours. */
  lemma MovingPass(s: State, e: string, id: string, gr: Group, m: nat)
    requires Moving(s, id, gr, m)
    requires e == id ==> !Flagged(s, id, s.current[id], m) && (Waiting(s, id, s.current[id], gr, m) ==> s.scans < m)
    ensures Moving(s.(todo := s.todo - {e}), id, gr, m)
  {
    var s' := s.(todo := s.todo - {e});
    assert Owned(s', s.current[id]) == Owned(s, s.current[id]) && Fresh(s', s.current[id]) == Fresh(s, s.current[id]);
  }

  /** The scan sends an endpoint to verification. */
  lemma MovingToVerify(s: State, e: string, id: string, gr: Group, m: nat)
    requires Moving(s, id, gr, m) && s.sending == Nothing && e in s.current
    requires e == id ==> !Flagged(s, id, s.current[id], m)
    ensures Moving(s.(todo := s.todo - {e}, sending := ToVerify(s.current[e])), id, gr, m)
  {
    var s' := s.(todo := s.todo - {e}, sending := ToVerify(s.current[e]));
    assert Owned(s', s.current[id]) == Owned(s, s.current[id]) && Fresh(s', s.current[id]) == Fresh(s, s.current[id]);
  }

  lemma MovingVisit(c: Machine, s: State, e: string, id: string, gr: Group, m: nat)
    requires Enabled(c, s, Visit(e)) && Moving(s, id, gr, m) && m % CHECK_FREQ == 0 && !c.skips(id)
    requires !c.skips(e) ==> !Requeues(s, e)
    ensures Moving(VisitEndpoint(c, s, e), id, gr, m)
  {
    if !c.skips(e) && s.scans % CHECK_FREQ == 0 {
      MovingToVerify(s, e, id, gr, m);
    } else {
      MovingPass(s, e, id, gr, m);
    }
  }

  lemma MovingNewGeneration(c: Machine, s: State, e: string, id: string, gr: Group, m: nat)
    requires Enabled(c, s, Visit(e)) && Moving(s, id, gr, m)
    ensures Moving(NewGeneration(s, e), id, gr, m)
  {
    var s' := NewGeneration(s, e);
    if e == id {
      assert Fresh(s', |s.cells|);
    } else {
      var g := s.current[id];
      assert s'.cells[g] == s.cells[g] && Owned(s', g) == Owned(s, g) && Fresh(s', g) == Fresh(s, g);
    }
  }

  lemma MovingSend(c: Machine, s: State, id: string, gr: Group, m: nat)
    requires Enabled(c, s, Send) && Moving(s, id, gr, m)
    ensures Moving(Do(c, s, Send), id, gr, m)
  {
  }

  lemma MovingScanEnd(c: Machine, s: State, id: string, gr: Group, m: nat)
    requires Enabled(c, s, ScanEnd) && Moving(s, id, gr, m)
    ensures Moving(Do(c, s, ScanEnd), id, gr, m)
  {
  }

  lemma MovingSpawn(c: Machine, s: State, id: string, gr: Group, m: nat)
    requires Enabled(c, s, SpawnSubscriber) && Moving(s, id, gr, m)
    ensures Moving(Do(c, s, SpawnSubscriber), id, gr, m)
  {
    assert s.pending == [s.pending[0]] + s.pending[1..];
  }

  lemma MovingScanStart(c: Machine, s: State, snapshot: set<string>, id: string, gr: Group, m: nat)
    requires Drained(s) && s.sending == Nothing && id in snapshot && Moving(s, id, gr, m)
    ensures Moving(Do(c, s, ScanStart(snapshot)), id, gr, m)
  {
  }

  /** Only the verify side of the state changes, and whatever was to be checked still is. */
  lemma MovingVerifySide(s: State, verify: seq<nat>, verifiers: map<nat, Verifier>, id: string, gr: Group, m: nat)
    requires Moving(s, id, gr, m)
    requires var g := s.current[id];
             InCheck(s, g, gr, m) ==>
               s.sending == ToVerify(g) || g in verify || exists v | v in verifiers :: WillCheck(verifiers[v], g, gr)
    ensures Moving(s.(verify := verify, verifiers := verifiers), id, gr, m)
  {
    var s' := s.(verify := verify, verifiers := verifiers);
    var g := s.current[id];
    assert Owned(s', g) == Owned(s, g) && Fresh(s', g) == Fresh(s, g);
  }

  lemma StillChecked(s: State, v: nat, g: nat, gr: Group, m: nat)
    requires g < |s.cells| && InCheck(s, g, gr, m) && s.verify != [] && s.verify[0] < |s.cells| && v !in s.verifiers
    ensures var s' := TakeFromVerify(s, v);
            s.sending == ToVerify(g) || g in s'.verify || exists w | w in s'.verifiers :: WillCheck(s'.verifiers[w], g, gr)
  {
    var s' := TakeFromVerify(s, v);
    assert s.verify == [s.verify[0]] + s.verify[1..];
    if s.verify[0] == g {
      assert WillCheck(s'.verifiers[v], g, gr);
    } else if !(s.sending == ToVerify(g) || g in s.verify) {
      var w :| w in s.verifiers && WillCheck(s.verifiers[w], g, gr);
      assert WillCheck(s'.verifiers[w], g, gr);
    }
  }

  lemma MovingTake(c: Machine, s: State, v: nat, id: string, gr: Group, m: nat)
    requires Enabled(c, s, TakeVerify(v)) && Moving(s, id, gr, m)
    ensures Moving(Do(c, s, TakeVerify(v)), id, gr, m)
  {
    var s' := TakeFromVerify(s, v);
    if InCheck(s, s.current[id], gr, m) {
      StillChecked(s, v, s.current[id], gr, m);
    }
    MovingVerifySide(s, s'.verify, s'.verifiers, id, gr, m);
  }

  lemma MovingStart(c: Machine, s: State, v: nat, id: string, gr: Group, m: nat)
    requires Enabled(c, s, StartVerify(v)) && Moving(s, id, gr, m)
    ensures Moving(Do(c, s, StartVerify(v)), id, gr, m)
  {
    var s' := Do(c, s, StartVerify(v));
    var g := s.current[id];
    if InCheck(s, g, gr, m) && !(s.sending == ToVerify(g) || g in s.verify) {
      var w :| w in s.verifiers && WillCheck(s.verifiers[w], g, gr);
      assert WillCheck(s'.verifiers[w], g, gr);
    }
    MovingVerifySide(s, s.verify, s'.verifiers, id, gr, m);
  }

  lemma MovingEnd(c: Machine, s: State, v: nat, id: string, gr: Group, m: nat)
    requires Enabled(c, s, EndVerify(v)) && Moving(s, id, gr, m)
    ensures Moving(Do(c, s, EndVerify(v)), id, gr, m)
  {
    var s' := Do(c, s, EndVerify(v));
    var g := s.current[id];
    if InCheck(s, g, gr, m) && !(s.sending == ToVerify(g) || g in s.verify) {
      var w :| w in s.verifiers && WillCheck(s.verifiers[w], g, gr);
      assert w in s'.verifiers && WillCheck(s'.verifiers[w], g, gr);
    }
    MovingVerifySide(s, s.verify, s'.verifiers, id, gr, m);
  }

  /** A check of another group, or one that reports the group missing. */
  lemma MovingWriteCheck(s: State, v: nat, h: nat, missing: bool, n: seq<Member>, id: string, gr: Group, m: nat)
    requires Moving(s, id, gr, m)
    requires v in s.verifiers && s.verifiers[v].Verifying? && s.verifiers[v].todo != [] && s.verifiers[v].gen == h < |s.cells|
    requires s.current[id] == h && s.verifiers[v].todo[0] == gr ==> missing
    ensures Moving(WriteCheck(s, v, h, s.verifiers[v].todo[1..], missing, n), id, gr, m)
  {
    var gs := s.verifiers[v].todo;
    var s' := WriteCheck(s, v, h, gs[1..], missing, n);
    var g := s.current[id];
    assert Owned(s', g) == Owned(s, g) && Fresh(s', g) == Fresh(s, g);
    if InCheck(s, g, gr, m) && !(s.sending == ToVerify(g) || g in s.verify) {
      var w :| w in s.verifiers && WillCheck(s.verifiers[w], g, gr);
      assert gs == [gs[0]] + gs[1..];
      if w != v || gs[0] != gr {
        assert WillCheck(s'.verifiers[w], g, gr);
      }
    }
  }

  lemma OnTrackCheck(c: Machine, s: State, v: nat, net: Net, id: string, gr: Group, m: nat)
    requires Inv(c, s) && Enabled(c, s, CheckGroup(v, net)) && Moving(s, id, gr, m)
    ensures OnTrack(c, CheckRecorded(c, s, v, net), id, gr, m)
  {
    var h, gs := s.verifiers[v].gen, s.verifiers[v].todo;
    var e := s.cells[h].id;
    var scan := IsDup(c.site, e, gs[0], net, BmcOf(s, e));
    if scan.check == Present && h == s.current[id] && gs[0] == gr {
      PresentIsTrue(c.site, e, gs[0], net, BmcOf(s, e));
    } else {
      MovingWriteCheck(s, v, h, scan.check != Present, scan.members, id, gr, m);
    }
  }

  /** A step for another generation, or one that leaves the group to be handled. */
  lemma MovingWriteHalf(s: State, h: nat, next: Subscriber, cell: Cells, n: seq<Member>, id: string, gr: Group, m: nat)
    requires Moving(s, id, gr, m) && Exclusive(s)
    requires h in s.subscribers && !s.subscribers[h].Pruning? && !next.Pruning? && h < |s.cells|
    requires h == s.current[id] && gr in s.subscribers[h].todo ==> gr in next.todo
    ensures Moving(WriteHalf(s, h, next, cell, n), id, gr, m)
  {
    var s' := WriteHalf(s, h, next, cell, n);
    var g := s.current[id];
    assert Owned(s', g) == Owned(s, g) && Fresh(s', g) == Fresh(s, g);
  }

  /** The check of the group itself: in place at once, or still to be posted. */
  lemma CheckedRepairs(c: Machine, s: State, h: nat, net: Net, gr: Group)
    requires BmcsOk(s.bmcs) && Enabled(c, s, RunCheck(h, net)) && s.subscribers[h].todo[0] == gr && forall r :: !net.fails(r)
    ensures var id := s.cells[h].id;
            Checked(c, s, h, net).status == None || InPlace(c.site, id, gr, BmcOf(HandleCheck(c, s, h, net), id))
  {
    CheckRepairs(c.site, s.cells[h].id, gr, net, BmcOf(s, s.cells[h].id));
  }

  lemma MovingRunCheck(c: Machine, s: State, h: nat, net: Net, id: string, gr: Group, m: nat)
    requires Exclusive(s) && Enabled(c, s, RunCheck(h, net)) && Moving(s, id, gr, m)
    requires h == s.current[id] && s.subscribers[h].todo[0] == gr ==> Checked(c, s, h, net).status == None
    ensures Moving(HandleCheck(c, s, h, net), id, gr, m)
  {
    var gs, out := s.subscribers[h].todo, Checked(c, s, h, net);
    assert gs == [gs[0]] + gs[1..];
    MovingWriteHalf(s, h, if out.status.Some? then Subscribing(gs[1..]) else Posting(gs), Wrote(s.cells[h], gs[0], out), out.members, id, gr, m);
  }

  lemma OnTrackRunCheck(c: Machine, s: State, h: nat, net: Net, id: string, gr: Group, m: nat)
    requires Inv(c, s) && Enabled(c, s, RunCheck(h, net)) && Moving(s, id, gr, m)
    requires Favours(c, s, RunCheck(h, net), id, gr)
    ensures OnTrack(c, HandleCheck(c, s, h, net), id, gr, m)
  {
    if h == s.current[id] && s.subscribers[h].todo[0] == gr {
      CheckedRepairs(c, s, h, net, gr);
    }
    if !InPlace(c.site, id, gr, BmcOf(HandleCheck(c, s, h, net), id)) {
      MovingRunCheck(c, s, h, net, id, gr, m);
    }
  }

  lemma OnTrackRunPost(c: Machine, s: State, h: nat, net: Net, id: string, gr: Group, m: nat)
    requires Inv(c, s) && Enabled(c, s, RunPost(h, net)) && Moving(s, id, gr, m)
    requires Favours(c, s, RunPost(h, net), id, gr)
    ensures OnTrack(c, HandlePost(c, s, h, net), id, gr, m)
  {
    var gs, out := s.subscribers[h].todo, Posted(c, s, h, net);
    assert gs == [gs[0]] + gs[1..];
    if h == s.current[id] && gs[0] == gr {
      PostPutsInPlace(c.site, id, gr, net, BmcOf(s, id));
    } else {
      MovingWriteHalf(s, h, Subscribing(gs[1..]), Wrote(s.cells[h], gs[0], out), out.members, id, gr, m);
    }
  }

  lemma MovingSubscriber(s: State, h: nat, bmcs: map<string, seq<Member>>, gs: seq<Group>, id: string, gr: Group, m: nat)
    requires Moving(s, id, gr, m) && h in s.subscribers && s.subscribers[h] == Pruning && gr in gs
    ensures Moving(s.(subscribers := s.subscribers[h := Subscribing(gs)], bmcs := bmcs), id, gr, m)
  {
    var s' := s.(subscribers := s.subscribers[h := Subscribing(gs)], bmcs := bmcs);
    assert Owned(s', s.current[id]) == Owned(s, s.current[id]);
  }

  lemma MovingFinish(c: Machine, s: State, h: nat, id: string, gr: Group, m: nat)
    requires Enabled(c, s, Finish(h)) && Moving(s, id, gr, m)
    ensures Moving(Do(c, s, Finish(h)), id, gr, m)
  {
  }

  lemma MovingForget(s: State, bmcs: map<string, seq<Member>>, id: string, gr: Group, m: nat)
    requires Moving(s, id, gr, m)
    ensures Moving(s.(bmcs := bmcs), id, gr, m)
  {
  }

  lemma OnTrackStep(c: Machine, s: State, l: Label, id: string, gr: Group, m: nat)
    requires Inv(c, s) && Enabled(c, s, l) && Favours(c, s, l, id, gr) && gr in Groups(c.site)
    requires OnTrack(c, s, id, gr, m) && m % CHECK_FREQ == 0
    ensures OnTrack(c, Do(c, s, l), id, gr, m)
  {
    if InPlace(c.site, id, gr, BmcOf(s, id)) {
      InPlaceStays(c, s, l, id, gr);
    } else {
      match l
      case ScanStart(snapshot) => MovingScanStart(c, s, snapshot, id, gr, m);
      case Visit(e) =>
        if !c.skips(e) && Requeues(s, e) {
          MovingNewGeneration(c, s, e, id, gr, m);
        } else {
          MovingVisit(c, s, e, id, gr, m);
        }
      case Send => MovingSend(c, s, id, gr, m);
      case ScanEnd => MovingScanEnd(c, s, id, gr, m);
      case SpawnSubscriber => MovingSpawn(c, s, id, gr, m);
      case RunPrune(h, net) => MovingSubscriber(s, h, Do(c, s, l).bmcs, Groups(c.site), id, gr, m);
      case RunCheck(h, net) => OnTrackRunCheck(c, s, h, net, id, gr, m);
      case RunPost(h, net) => OnTrackRunPost(c, s, h, net, id, gr, m);
      case Finish(h) => MovingFinish(c, s, h, id, gr, m);
      case TakeVerify(v) => MovingTake(c, s, v, id, gr, m);
      case StartVerify(v) => MovingStart(c, s, v, id, gr, m);
      case CheckGroup(v, net) => OnTrackCheck(c, s, v, net, id, gr, m);
      case EndVerify(v) => MovingEnd(c, s, v, id, gr, m);
      case Forget(e, oids) => MovingForget(s, Do(c, s, l).bmcs, id, gr, m);
    }
  }

  lemma {:induction false} OnTrackRun(c: Machine, s: State, ls: seq<Label>, id: string, gr: Group, m: nat)
    requires Inv(c, s) && Runs(c, s, ls) && Favourable(c, s, ls, id, gr) && gr in Groups(c.site)
    requires OnTrack(c, s, id, gr, m) && m % CHECK_FREQ == 0
    ensures OnTrack(c, After(c, s, ls), id, gr, m)
    decreases |ls|
  {
    if ls == [] {
    } else {
      var last := |ls| - 1;
      OnTrackRun(c, s, ls[..last], id, gr, m);
      InvHolds(c, s, ls[..last]);
      OnTrackStep(c, After(c, s, ls[..last]), ls[last], id, gr, m);
    }
  }

  /** Self-repair.  From a drained state in which a group is recorded for an endpoint (and its
      subscription may be gone), any favourable run that drains the work of 21 more scans leaves
      the subscription in place under our name. */
  lemma SelfRepair(c: Machine, s: State, ls: seq<Label>, id: string, gr: Group)
    requires Inv(c, s) && Drained(s) && id in s.current && gr in s.cells[s.current[id]].prefixes
    requires Runs(c, s, ls) && Favourable(c, s, ls, id, gr)
    requires Drained(After(c, s, ls)) && After(c, s, ls).scans >= s.scans + 21
    ensures InPlace(c.site, id, gr, BmcOf(After(c, s, ls), id))
  {
    var m := NextCheck(s.scans);
    RecordedIsMoving(c, s, id, gr, m);
    OnTrackRun(c, s, ls, id, gr, m);
    InvHolds(c, s, ls);
    DrainedIsDone(c, After(c, s, ls), id, gr, m);
  }

  /** The next scan whose number is a multiple of the check frequency. */
  function NextCheck(n: nat): (m: nat)
    ensures n < m <= n + 20 && m % 20 == 0
  {
    (n / CHECK_FREQ + 1) * CHECK_FREQ
  }

  lemma RecordedIsMoving(c: Machine, s: State, id: string, gr: Group, m: nat)
    requires Inv(c, s) && Drained(s) && id in s.current && gr in s.cells[s.current[id]].prefixes && s.scans < m
    ensures Moving(s, id, gr, m) && gr in Groups(c.site)
  {
    assert !Owned(s, s.current[id]);
    assert GoodList(Groups(c.site), s.cells[s.current[id]].prefixes);
  }

  lemma DrainedIsDone(c: Machine, s: State, id: string, gr: Group, m: nat)
    requires Inv(c, s) && Drained(s) && OnTrack(c, s, id, gr, m) && s.scans > m
    ensures InPlace(c.site, id, gr, BmcOf(s, id))
  {
  }
}
