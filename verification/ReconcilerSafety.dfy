/** Safety of the subscription reconciler in every interleaving. */
module ReconcilerSafety {
  import opened Subscriptions
  import opened SubscriptionFacts
  import opened PrefixGroups
  import opened Reconciler

  // ------------------------------------------------ one lemma per kind of step

  lemma InvScan(c: Machine, s: State, l: Label)
    requires Inv(c, s) && Enabled(c, s, l) && (l.ScanStart? || l.ScanEnd?)
    ensures Inv(c, Do(c, s, l))
  {
  }

  lemma NewGenerationKeepsStatuses(c: Machine, s: State, id: string)
    requires Inv(c, s) && s.sending == Nothing && s.scanning
    ensures Statuses(NewGeneration(s, id)) && Exclusive(NewGeneration(s, id))
  {
    var s' := NewGeneration(s, id);
    assert forall g | 0 <= g < |s.cells| :: s'.cells[g] == s.cells[g] && Owned(s', g) == Owned(s, g) && Fresh(s', g) == Fresh(s, g);
  }

  lemma InvNewGeneration(c: Machine, s: State, id: string)
    requires Inv(c, s) && s.sending == Nothing && s.scanning && !c.skips(id)
    ensures Inv(c, NewGeneration(s, id))
  {
    var s' := NewGeneration(s, id);
    NewGenerationKeepsStatuses(c, s, id);
    forall g | 0 <= g < |s'.cells| ensures GoodList(Groups(c.site), s'.cells[g].prefixes) {
      assert g < |s.cells| ==> s'.cells[g] == s.cells[g];
    }
  }

  lemma InvVisit(c: Machine, s: State, id: string)
    requires Inv(c, s) && Enabled(c, s, Visit(id))
    ensures Inv(c, VisitEndpoint(c, s, id))
  {
    if !c.skips(id) && Requeues(s, id) {
      InvNewGeneration(c, s, id);
    }
  }

  lemma SendKeepsStatuses(s: State, g: nat)
    requires Statuses(s) && Exclusive(s) && s.sending == ToPending(g)
    ensures var s' := s.(pending := s.pending + [g], sending := Nothing); Statuses(s') && Exclusive(s')
  {
    var s' := s.(pending := s.pending + [g], sending := Nothing);
    assert forall h :: Owned(s', h) == Owned(s, h) && Fresh(s', h) == Fresh(s, h);
  }

  lemma SendVerifyKeepsStatuses(s: State, g: nat)
    requires Statuses(s) && Exclusive(s) && s.sending == ToVerify(g)
    ensures var s' := s.(verify := s.verify + [g], sending := Nothing); Statuses(s') && Exclusive(s')
  {
    var s' := s.(verify := s.verify + [g], sending := Nothing);
    assert forall h :: Owned(s', h) == Owned(s, h) && Fresh(s', h) == Fresh(s, h);
  }

  lemma InvSend(c: Machine, s: State)
    requires Inv(c, s) && Enabled(c, s, Send)
    ensures Inv(c, Do(c, s, Send))
  {
    if s.sending.ToPending? {
      SendKeepsStatuses(s, s.sending.gen);
    } else {
      SendVerifyKeepsStatuses(s, s.sending.gen);
    }
  }

  lemma SpawnKeepsStatuses(s: State, g: nat, rest: seq<nat>)
    requires Statuses(s) && Exclusive(s) && s.pending == [g] + rest
    ensures var s' := s.(pending := rest, subscribers := s.subscribers[g := Pruning]); Statuses(s') && Exclusive(s')
  {
    var s' := s.(pending := rest, subscribers := s.subscribers[g := Pruning]);
    assert forall i | 0 <= i < |rest| :: s.pending[i + 1] == rest[i];
    assert s.pending[0] == g && g in s.pending && g !in rest;
    assert forall h | h in rest :: h in s.pending;
    assert forall h :: Owned(s', h) == Owned(s, h) && Fresh(s', h) == Fresh(s, h);
  }

  lemma InvSpawnHead(c: Machine, s: State, g: nat, rest: seq<nat>)
    requires Inv(c, s) && s.pending == [g] + rest
    ensures Inv(c, s.(pending := rest, subscribers := s.subscribers[g := Pruning]))
  {
    SpawnKeepsStatuses(s, g, rest);
    assert g in s.pending && forall h | h in rest :: h in s.pending;
  }

  lemma InvSpawn(c: Machine, s: State)
    requires Inv(c, s) && Enabled(c, s, SpawnSubscriber)
    ensures Inv(c, Do(c, s, SpawnSubscriber))
  {
    assert s.pending == [s.pending[0]] + s.pending[1..];
    InvSpawnHead(c, s, s.pending[0], s.pending[1..]);
  }

  lemma InvPrune(c: Machine, s: State, g: nat, net: Net)
    requires Inv(c, s) && Enabled(c, s, RunPrune(g, net))
    ensures Inv(c, Do(c, s, RunPrune(g, net)))
  {
    var id := s.cells[g].id;
    OpKeepsDistinctOids(c.site, id, PruneOp(net), BmcOf(s, id));
  }

  lemma InvWriteHalf(c: Machine, s: State, g: nat, next: Subscriber, cell: Cells, m: seq<Member>)
    requires Inv(c, s) && g in s.subscribers && !s.subscribers[g].Pruning?
    requires !next.Pruning? && SubscriberOk(c, next) && GoodList(Groups(c.site), cell.prefixes)
    requires cell.id == s.cells[g].id && DistinctOids(m)
    ensures Inv(c, WriteHalf(s, g, next, cell, m))
  {
    HalfKeepsStatuses(s, g, next, cell, m);
    HalfKeepsShape(c, s, g, next, cell, m);
  }

  lemma HalfKeepsShape(c: Machine, s: State, g: nat, next: Subscriber, cell: Cells, m: seq<Member>)
    requires CurrentOk(c, s.current, s.cells) && SubscribersOk(c, s.subscribers, |s.cells|)
    requires CellsOk(c, s.cells) && BmcsOk(s.bmcs) && g < |s.cells| && cell.id == s.cells[g].id
    requires SubscriberOk(c, next) && GoodList(Groups(c.site), cell.prefixes) && DistinctOids(m)
    ensures var s' := WriteHalf(s, g, next, cell, m);
            && CurrentOk(c, s'.current, s'.cells) && SubscribersOk(c, s'.subscribers, |s'.cells|)
            && CellsOk(c, s'.cells) && BmcsOk(s'.bmcs)
  {
  }

  lemma HalfKeepsStatuses(s: State, g: nat, next: Subscriber, cell: Cells, m: seq<Member>)
    requires Statuses(s) && Exclusive(s) && g < |s.cells|
    requires g in s.subscribers && !s.subscribers[g].Pruning? && !next.Pruning?
    ensures var s' := WriteHalf(s, g, next, cell, m); Statuses(s') && Exclusive(s')
  {
    var s' := WriteHalf(s, g, next, cell, m);
    assert forall h :: Owned(s', h) == Owned(s, h) && Fresh(s', h) == Fresh(s, h);
  }

  lemma HeadOfSuffix(gs: seq<Group>, all: seq<Group>)
    requires SuffixOf(gs, all) && gs != []
    ensures gs[0] in all && SuffixOf(gs[1..], all)
  {
    assert gs[0] == all[|all| - |gs|];
  }

  lemma WroteIsGood(c: Machine, cell: Cells, gr: Group, out: Written)
    requires GoodList(Groups(c.site), cell.prefixes) && gr in Groups(c.site)
    ensures GoodList(Groups(c.site), Wrote(cell, gr, out).prefixes)
  {
    SiteGroupsDistinct(c.site);
    AppendKeepsGoodList(Groups(c.site), cell.prefixes, gr);
  }

  lemma InvRunCheck(c: Machine, s: State, g: nat, net: Net)
    requires Inv(c, s) && Enabled(c, s, RunCheck(g, net))
    ensures Inv(c, HandleCheck(c, s, g, net))
  {
    var cell, gs, out := s.cells[g], s.subscribers[g].todo, Checked(c, s, g, net);
    HeadOfSuffix(gs, Groups(c.site));
    WroteIsGood(c, cell, gs[0], out);
    OpKeepsDistinctOids(c.site, cell.id, CheckOp(g, gs[0], net), BmcOf(s, cell.id));
    InvWriteHalf(c, s, g, if out.status.Some? then Subscribing(gs[1..]) else Posting(gs), Wrote(cell, gs[0], out), out.members);
  }

  lemma InvRunPost(c: Machine, s: State, g: nat, net: Net)
    requires Inv(c, s) && Enabled(c, s, RunPost(g, net))
    ensures Inv(c, HandlePost(c, s, g, net))
  {
    var cell, gs, out := s.cells[g], s.subscribers[g].todo, Posted(c, s, g, net);
    HeadOfSuffix(gs, Groups(c.site));
    WroteIsGood(c, cell, gs[0], out);
    OpKeepsDistinctOids(c.site, cell.id, PostOp(g, gs[0], net), BmcOf(s, cell.id));
    InvWriteHalf(c, s, g, Subscribing(gs[1..]), Wrote(cell, gs[0], out), out.members);
  }

  lemma InvFinish(c: Machine, s: State, g: nat)
    requires Inv(c, s) && Enabled(c, s, Finish(g))
    ensures Inv(c, Do(c, s, Finish(g)))
  {
  }

  lemma InvTakeHead(c: Machine, s: State, v: nat, g: nat, rest: seq<nat>)
    requires Inv(c, s) && g < |s.cells| && forall h | h in rest :: h in s.verify
    ensures Inv(c, s.(verify := rest))
    ensures s.cells[g].status == COMPLETE ==> Inv(c, s.(verify := rest, verifiers := s.verifiers[v := Spawned(g)]))
  {
    var s1, s2 := s.(verify := rest), s.(verify := rest, verifiers := s.verifiers[v := Spawned(g)]);
    assert forall h :: Owned(s1, h) == Owned(s, h) && Fresh(s1, h) == Fresh(s, h);
    assert forall h :: Owned(s2, h) == Owned(s, h) && Fresh(s2, h) == Fresh(s, h);
  }

  lemma InvTakeVerify(c: Machine, s: State, v: nat)
    requires Inv(c, s) && Enabled(c, s, TakeVerify(v))
    ensures Inv(c, Do(c, s, TakeVerify(v)))
  {
    var rest := s.verify[1..];
    assert forall i | 0 <= i < |rest| :: rest[i] == s.verify[i + 1];
    InvTakeHead(c, s, v, s.verify[0], rest);
  }

  lemma InvStartVerify(c: Machine, s: State, v: nat)
    requires Inv(c, s) && Enabled(c, s, StartVerify(v))
    ensures Inv(c, Do(c, s, StartVerify(v)))
  {
    var s' := Do(c, s, StartVerify(v));
    assert forall h :: Owned(s', h) == Owned(s, h) && Fresh(s', h) == Fresh(s, h);
  }

  lemma InvEndVerify(c: Machine, s: State, v: nat)
    requires Inv(c, s) && Enabled(c, s, EndVerify(v))
    ensures Inv(c, Do(c, s, EndVerify(v)))
  {
    var s' := Do(c, s, EndVerify(v));
    assert forall h :: Owned(s', h) == Owned(s, h) && Fresh(s', h) == Fresh(s, h);
  }

  lemma InvWriteCheck(c: Machine, s: State, v: nat, g: nat, todo: seq<Group>, missing: bool, m: seq<Member>)
    requires Inv(c, s) && v in s.verifiers && s.verifiers[v].gen == g && DistinctOids(m)
    ensures Inv(c, WriteCheck(s, v, g, todo, missing, m))
  {
    var s' := WriteCheck(s, v, g, todo, missing, m);
    assert forall h :: Owned(s', h) == Owned(s, h) && Fresh(s', h) == Fresh(s, h);
  }

  lemma InvCheckGroup(c: Machine, s: State, v: nat, net: Net)
    requires Inv(c, s) && Enabled(c, s, CheckGroup(v, net))
    ensures Inv(c, CheckRecorded(c, s, v, net))
  {
    var g, gs := s.verifiers[v].gen, s.verifiers[v].todo;
    var id := s.cells[g].id;
    OpKeepsDistinctOids(c.site, id, VerifyOp(gs[0], net), BmcOf(s, id));
    var scan := IsDup(c.site, id, gs[0], net, BmcOf(s, id));
    InvWriteCheck(c, s, v, g, gs[1..], scan.check != Present, scan.members);
  }

  lemma InvForget(c: Machine, s: State, id: string, oids: set<string>)
    requires Inv(c, s)
    ensures Inv(c, Do(c, s, Forget(id, oids)))
  {
    OpKeepsDistinctOids(c.site, id, LoseOp(oids), BmcOf(s, id));
  }

  lemma InvPreserved(c: Machine, s: State, l: Label)
    requires Inv(c, s) && Enabled(c, s, l)
    ensures Inv(c, Do(c, s, l))
  {
    match l
    case ScanStart(_) => InvScan(c, s, l);
    case ScanEnd => InvScan(c, s, l);
    case Visit(id) => InvVisit(c, s, id);
    case Send => InvSend(c, s);
    case SpawnSubscriber => InvSpawn(c, s);
    case RunPrune(g, net) => InvPrune(c, s, g, net);
    case RunCheck(g, net) => InvRunCheck(c, s, g, net);
    case RunPost(g, net) => InvRunPost(c, s, g, net);
    case Finish(g) => InvFinish(c, s, g);
    case TakeVerify(v) => InvTakeVerify(c, s, v);
    case StartVerify(v) => InvStartVerify(c, s, v);
    case CheckGroup(v, net) => InvCheckGroup(c, s, v, net);
    case EndVerify(v) => InvEndVerify(c, s, v);
    case Forget(id, oids) => InvForget(c, s, id, oids);
  }

  lemma {:induction false} InvHolds(c: Machine, s: State, ls: seq<Label>)
    requires Inv(c, s) && Runs(c, s, ls)
    ensures Inv(c, After(c, s, ls))
    decreases |ls|
  {
    if ls == [] {
    } else {
      var last := |ls| - 1;
      InvHolds(c, s, ls[..last]);
      InvPreserved(c, After(c, s, ls[..last]), ls[last]);
    }
  }
}
