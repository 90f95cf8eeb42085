/**
 Overlapping passes of one endpoint.  A status of ERROR written in the middle of a pass lets the scan start
 another one, and the duplicate check and the POST of an iteration are separate requests without a lock.
 This is where the simple bound on duplicates fails, and exactly where.
 */
module ReconcilerRace {
  import opened Subscriptions
  import opened SubscriptionFacts
  import opened Reconciler
  import opened ReconcilerSafety
  import opened ReconcilerHistory
  import opened ReconcilerRuns

  /** At most max(1, initial) matches, plus one per DELETE that failed straight after a failed PATCH. */
  predicate SimplyBounded(c: Machine, s: State, ls: seq<Label>, id: string, g: Group)
    requires Runs(c, s, ls)
  {
    Count(c.site, id, g, BmcOf(After(c, s, ls), id)) <=
    Max1(Count(c.site, id, g, BmcOf(s, id))) + StuckDeletes(c.site, id, g, OpsOn(c, s, ls, id), BmcOf(s, id))
  }

  // ------------------------------------------------ runs without a race

  /** Generation `h` of endpoint `id` found `g` missing and is about to POST it. */
  predicate Poster(s: State, h: nat, id: string, g: Group) {
    && h in s.subscribers && s.subscribers[h].Posting? && s.subscribers[h].todo != [] && s.subscribers[h].todo[0] == g
    && h < |s.cells| && s.cells[h].id == id
  }

  /** The step creates a subscription for `g` on the BMC of `id`. */
  predicate CreatesFor(c: Machine, s: State, l: Label, id: string, g: Group)
    requires Enabled(c, s, l)
  {
    var op := OpOn(c, s, l, id);
    op.Some? && Posts(op.value, g)
  }

  /** Whenever a subscription is created, no other goroutine of the endpoint is between check and POST for
      the same group. */
  predicate RaceFree(c: Machine, s: State, ls: seq<Label>, id: string, g: Group)
    requires Runs(c, s, ls)
    decreases |ls|
  {
    ls == [] ||
    var last := |ls| - 1;
    var t := After(c, s, ls[..last]);
    && RaceFree(c, s, ls[..last], id, g)
    && (CreatesFor(c, t, ls[last], id, g) ==> forall h | h in t.subscribers && Poster(t, h, id, g) :: h == ls[last].gen)
  }

  /** The step is the check by which `h` becomes a poster. */
  predicate BecomesPoster(c: Machine, s: State, l: Label, h: nat, id: string, g: Group)
    requires Enabled(c, s, l)
  {
    && l.RunCheck? && l.gen == h && s.cells[h].id == id && s.subscribers[h].todo[0] == g
    && IsDup(c.site, id, g, l.net, BmcOf(s, id)).check == Absent
  }

  lemma PosterInHalf(s: State, k: nat, next: Subscriber, cell: Cells, m: seq<Member>, h: nat, id: string, g: Group)
    requires k < |s.cells| && cell.id == s.cells[k].id && Poster(WriteHalf(s, k, next, cell, m), h, id, g)
    ensures if h == k then next.Posting? && next.todo != [] && next.todo[0] == g && s.cells[k].id == id else Poster(s, h, id, g)
  {
  }

  /** A poster was one before, unless its check has just been made; a POST ends it. */
  predicate StaysPoster(c: Machine, s: State, l: Label, h: nat, id: string, g: Group)
    requires Enabled(c, s, l)
  {
    BecomesPoster(c, s, l, h, id, g) || (Poster(s, h, id, g) && !((l.RunCheck? || l.RunPost?) && l.gen == h))
  }

  lemma PosterRunCheck(c: Machine, s: State, k: nat, net: Net, h: nat, id: string, g: Group)
    requires Enabled(c, s, RunCheck(k, net)) && Poster(HandleCheck(c, s, k, net), h, id, g)
    ensures StaysPoster(c, s, RunCheck(k, net), h, id, g)
  {
    var gs, out := s.subscribers[k].todo, Checked(c, s, k, net);
    PosterInHalf(s, k, if out.status.Some? then Subscribing(gs[1..]) else Posting(gs), Wrote(s.cells[k], gs[0], out), out.members, h, id, g);
  }

  lemma PosterRunPost(c: Machine, s: State, k: nat, net: Net, h: nat, id: string, g: Group)
    requires Enabled(c, s, RunPost(k, net)) && Poster(HandlePost(c, s, k, net), h, id, g)
    ensures StaysPoster(c, s, RunPost(k, net), h, id, g)
  {
    var gs, out := s.subscribers[k].todo, Posted(c, s, k, net);
    PosterInHalf(s, k, Subscribing(gs[1..]), Wrote(s.cells[k], gs[0], out), out.members, h, id, g);
  }

  lemma PosterVisit(c: Machine, s: State, e: string, h: nat, id: string, g: Group)
    requires SubscribersOk(c, s.subscribers, |s.cells|) && Enabled(c, s, Visit(e)) && Poster(VisitEndpoint(c, s, e), h, id, g)
    ensures Poster(s, h, id, g)
  {
  }

  lemma PosterVerify(c: Machine, s: State, v: nat, net: Net, h: nat, id: string, g: Group)
    requires Enabled(c, s, CheckGroup(v, net)) && Poster(CheckRecorded(c, s, v, net), h, id, g)
    ensures Poster(s, h, id, g)
  {
  }

  lemma PosterStep(c: Machine, s: State, l: Label, h: nat, id: string, g: Group)
    requires SubscribersOk(c, s.subscribers, |s.cells|) && Enabled(c, s, l) && Poster(Do(c, s, l), h, id, g)
    ensures StaysPoster(c, s, l, h, id, g)
  {
    match l
    case RunCheck(k, net) => PosterRunCheck(c, s, k, net, h, id, g);
    case RunPost(k, net) => PosterRunPost(c, s, k, net, h, id, g);
    case Visit(e) => PosterVisit(c, s, e, h, id, g);
    case CheckGroup(v, net) => PosterVerify(c, s, v, net, h, id, g);
    case _ =>
  }

  /** How one operation changes the set of standing answers. */
  lemma ClearStep(c: Site, id: string, g: Group, ops: seq<Op>, op: Op, m: seq<Member>)
    ensures var clear, n := Clear(c, id, g, ops, m), ApplyAll(c, id, ops, m);
            && Clear(c, id, g, ops + [op], m) ==
                 (if Posts(op, g) then {}
                  else if FindsAbsent(c, id, g, op, n) then clear + {op.who}
                  else if (op.CheckOp? || op.PostOp?) && op.group == g then clear - {op.who}
                  else clear)
            && OvertakenPosts(c, id, g, ops + [op], m) ==
                 OvertakenPosts(c, id, g, ops, m) + (if Posts(op, g) && op.who !in clear then 1 else 0)
  {
    assert (ops + [op])[..|ops|] == ops;
  }

  /** The posters of a state have standing answers. */
  ghost predicate PostersClear(s: State, id: string, g: Group, clear: set<nat>) {
    forall h | h in s.subscribers && Poster(s, h, id, g) :: h in clear
  }

  lemma RaceFreeStep(c: Machine, s: State, l: Label, id: string, g: Group, ops: seq<Op>, m: seq<Member>)
    requires SubscribersOk(c, s.subscribers, |s.cells|) && Enabled(c, s, l)
    requires BmcOf(s, id) == ApplyAll(c.site, id, ops, m) && PostersClear(s, id, g, Clear(c.site, id, g, ops, m))
    requires CreatesFor(c, s, l, id, g) ==> forall h | h in s.subscribers && Poster(s, h, id, g) :: h == l.gen
    ensures var op := OpOn(c, s, l, id);
            var ops' := ops + (if op.Some? then [op.value] else []);
            && PostersClear(Do(c, s, l), id, g, Clear(c.site, id, g, ops', m))
            && OvertakenPosts(c.site, id, g, ops', m) == OvertakenPosts(c.site, id, g, ops, m)
  {
    var op, s' := OpOn(c, s, l, id), Do(c, s, l);
    var ops' := ops + (if op.Some? then [op.value] else []);
    if op.Some? {
      ClearStep(c.site, id, g, ops, op.value, m);
    } else {
      assert ops' == ops;
    }
    if CreatesFor(c, s, l, id, g) {
      assert Poster(s, l.gen, id, g);
    }
    forall h | h in s'.subscribers && Poster(s', h, id, g) ensures h in Clear(c.site, id, g, ops', m) {
      PosterStep(c, s, l, h, id, g);
    }
  }

  lemma {:induction false} RaceFreeIsClear(c: Machine, s: State, ls: seq<Label>, id: string, g: Group)
    requires Initial(s) && Runs(c, s, ls) && RaceFree(c, s, ls, id, g)
    ensures OvertakenPosts(c.site, id, g, OpsOn(c, s, ls, id), BmcOf(s, id)) == 0
    ensures PostersClear(After(c, s, ls), id, g, Clear(c.site, id, g, OpsOn(c, s, ls, id), BmcOf(s, id)))
    decreases |ls|
  {
    if ls == [] {
    } else {
      var last := |ls| - 1;
      RaceFreeIsClear(c, s, ls[..last], id, g);
      InitialInv(c, s);
      InvHolds(c, s, ls[..last]);
      BmcSeesOps(c, s, ls[..last], id);
      RaceFreeStep(c, After(c, s, ls[..last]), ls[last], id, g, OpsOn(c, s, ls[..last], id), BmcOf(s, id));
    }
  }

  /** Without a race between check and POST the simple bound holds, in every interleaving. */
  lemma RaceFreeRunsAreBounded(c: Machine, s: State, ls: seq<Label>, id: string, g: Group)
    requires Initial(s) && Runs(c, s, ls) && g in Groups(c.site) && RaceFree(c, s, ls, id, g)
    ensures SimplyBounded(c, s, ls, id, g)
  {
    ReachableDuplicatesAreBounded(c, s, ls, id, g);
    RaceFreeIsClear(c, s, ls, id, g);
  }

  // ------------------------------------------------ a single group never races

  /** A pass that may still check or POST a group. */
  predicate Early(s: State, h: nat) {
    Owned(s, h) && (h in s.subscribers ==> s.subscribers[h] != Subscribing([]))
  }

  ghost predicate SoloAt(s: State, h: nat)
    requires h < |s.cells|
  {
    Early(s, h) ==> s.cells[h].status == PENDING && s.cells[h].id in s.current && s.current[s.cells[h].id] == h
  }

  /** Only the current record of an endpoint has work ahead, and it still reads PENDING. */
  ghost predicate Solo(s: State) {
    && (forall h | 0 <= h < |s.cells| :: SoloAt(s, h))
    && (forall v | v in s.verifiers :: !Early(s, s.verifiers[v].gen))
  }

  lemma OneGroup(c: Machine, s: State, g: nat)
    requires SubscribersOk(c, s.subscribers, |s.cells|) && !c.site.streaming
    requires g in s.subscribers && !s.subscribers[g].Pruning? && s.subscribers[g].todo != []
    ensures s.subscribers[g].todo[1..] == []
  {
    var gs := s.subscribers[g].todo;
    assert SubscriberOk(c, s.subscribers[g]);
    assert Groups(c.site) == [NilGroup];
    assert |gs| == 1;
  }

  lemma EarlyHalf(s: State, g: nat, next: Subscriber, cell: Cells, m: seq<Member>, h: nat)
    requires g < |s.cells| && g in s.subscribers && s.subscribers[g] != Subscribing([]) && !Early(s, h)
    ensures !Early(WriteHalf(s, g, next, cell, m), h)
  {
  }

  lemma EarlyVisit(c: Machine, s: State, e: string, h: nat)
    requires Enabled(c, s, Visit(e)) && h < |s.cells| && !Early(s, h)
    ensures !Early(VisitEndpoint(c, s, e), h)
  {
  }

  lemma EarlyVerify(c: Machine, s: State, v: nat, net: Net, h: nat)
    requires Enabled(c, s, CheckGroup(v, net)) && !Early(s, h)
    ensures !Early(CheckRecorded(c, s, v, net), h)
  {
  }

  /** No pass gets work back. */
  lemma EarlyStep(c: Machine, s: State, l: Label, h: nat)
    requires Exclusive(s) && Enabled(c, s, l) && h < |s.cells| && !Early(s, h)
    ensures !Early(Do(c, s, l), h)
  {
    match l
    case SpawnSubscriber => assert s.pending == [s.pending[0]] + s.pending[1..];
    case Visit(e) => EarlyVisit(c, s, e, h);
    case RunCheck(g, net) =>
      var gs, out := s.subscribers[g].todo, Checked(c, s, g, net);
      EarlyHalf(s, g, if out.status.Some? then Subscribing(gs[1..]) else Posting(gs), Wrote(s.cells[g], gs[0], out), out.members, h);
    case RunPost(g, net) =>
      var gs, out := s.subscribers[g].todo, Posted(c, s, g, net);
      EarlyHalf(s, g, Subscribing(gs[1..]), Wrote(s.cells[g], gs[0], out), out.members, h);
    case CheckGroup(v, net) => EarlyVerify(c, s, v, net, h);
    case _ =>
  }

  lemma SoloVisit(c: Machine, s: State, e: string, h: nat)
    requires Solo(s) && Enabled(c, s, Visit(e)) && h < |VisitEndpoint(c, s, e).cells|
    ensures SoloAt(VisitEndpoint(c, s, e), h)
  {
    if h < |s.cells| {
      assert SoloAt(s, h);
      if !Early(s, h) {
        EarlyVisit(c, s, e, h);
      }
    }
  }

  /** Half an iteration that ends the pass's work, or leaves its status alone. */
  lemma SoloHalf(s: State, g: nat, next: Subscriber, cell: Cells, m: seq<Member>, h: nat)
    requires Solo(s) && g in s.subscribers && s.subscribers[g] != Subscribing([]) && g < |s.cells| && h < |s.cells|
    requires cell.id == s.cells[g].id && (next != Subscribing([]) ==> cell.status == s.cells[g].status)
    requires s.sending != ToPending(g) && g !in s.pending
    ensures SoloAt(WriteHalf(s, g, next, cell, m), h)
  {
    assert SoloAt(s, h);
  }

  lemma SoloCheck(c: Machine, s: State, g: nat, net: Net, h: nat)
    requires Inv(c, s) && Solo(s) && Enabled(c, s, RunCheck(g, net)) && !c.site.streaming && h < |s.cells|
    ensures SoloAt(HandleCheck(c, s, g, net), h)
  {
    var gs, out := s.subscribers[g].todo, Checked(c, s, g, net);
    OneGroup(c, s, g);
    SoloHalf(s, g, if out.status.Some? then Subscribing(gs[1..]) else Posting(gs), Wrote(s.cells[g], gs[0], out), out.members, h);
  }

  lemma SoloPost(c: Machine, s: State, g: nat, net: Net, h: nat)
    requires Inv(c, s) && Solo(s) && Enabled(c, s, RunPost(g, net)) && !c.site.streaming && h < |s.cells|
    ensures SoloAt(HandlePost(c, s, g, net), h)
  {
    var gs, out := s.subscribers[g].todo, Posted(c, s, g, net);
    OneGroup(c, s, g);
    SoloHalf(s, g, Subscribing(gs[1..]), Wrote(s.cells[g], gs[0], out), out.members, h);
  }

  lemma SoloVerify(c: Machine, s: State, v: nat, net: Net, h: nat)
    requires Solo(s) && Enabled(c, s, CheckGroup(v, net)) && h < |s.cells|
    ensures SoloAt(CheckRecorded(c, s, v, net), h)
  {
    assert !Early(s, s.verifiers[v].gen);
    assert SoloAt(s, h);
  }

  lemma SoloSend(s: State, h: nat)
    requires Solo(s) && s.sending != Nothing && h < |s.cells|
    ensures SoloAt(SendOne(s), h)
  {
    assert SoloAt(s, h);
  }

  lemma SoloSpawn(s: State, h: nat)
    requires Exclusive(s) && Solo(s) && s.pending != [] && h < |s.cells|
    ensures SoloAt(Spawn(s), h)
  {
    assert SoloAt(s, h);
    assert s.pending == [s.pending[0]] + s.pending[1..];
    assert s.pending[0] in s.pending;
    assert Early(Spawn(s), h) ==> Early(s, h);
  }

  lemma SoloPrune(c: Machine, s: State, g: nat, net: Net, h: nat)
    requires Solo(s) && g < |s.cells| && g in s.subscribers && s.subscribers[g] == Pruning && h < |s.cells|
    ensures SoloAt(PruneBmc(c, s, g, net), h)
  {
    assert SoloAt(s, h);
  }

  lemma SoloFinish(s: State, g: nat, h: nat)
    requires Exclusive(s) && Solo(s) && g < |s.cells| && g in s.subscribers && s.subscribers[g] == Subscribing([]) && h < |s.cells|
    ensures SoloAt(FinishPass(s, g), h)
  {
    assert SoloAt(s, h);
  }

  /** Nothing that matters for passes changes. */
  lemma SoloSame(s: State, s': State, h: nat)
    requires Solo(s) && h < |s.cells| && s'.cells == s.cells && s'.current == s.current
    requires s'.sending == s.sending && s'.pending == s.pending && s'.subscribers == s.subscribers
    ensures SoloAt(s', h)
  {
    assert SoloAt(s, h);
  }

  lemma PassesUntouched(c: Machine, s: State, l: Label)
    requires Enabled(c, s, l) && (l.ScanStart? || l.ScanEnd? || l.TakeVerify? || l.StartVerify? || l.EndVerify? || l.Forget?)
    ensures var s' := Do(c, s, l);
            && s'.cells == s.cells && s'.current == s.current
            && s'.sending == s.sending && s'.pending == s.pending && s'.subscribers == s.subscribers
  {
    match l
    case TakeVerify(v) => assert TakeFromVerify(s, v).cells == s.cells;
    case _ =>
  }

  /** The steps that move a pass between scan, channel and goroutine. */
  lemma SoloMoves(c: Machine, s: State, l: Label, h: nat)
    requires Exclusive(s) && Solo(s) && Enabled(c, s, l) && h < |s.cells|
    requires l.Send? || l.SpawnSubscriber? || l.RunPrune? || l.Finish?
    ensures h < |Do(c, s, l).cells| && SoloAt(Do(c, s, l), h)
  {
    match l
    case Send => SoloSend(s, h);
    case SpawnSubscriber => SoloSpawn(s, h);
    case RunPrune(g, net) => SoloPrune(c, s, g, net, h);
    case Finish(g) => SoloFinish(s, g, h);
  }

  /** The steps that write status cells. */
  lemma SoloWrites(c: Machine, s: State, l: Label, h: nat)
    requires Inv(c, s) && Solo(s) && Enabled(c, s, l) && !c.site.streaming && h < |s.cells|
    requires l.RunCheck? || l.RunPost? || l.CheckGroup?
    ensures h < |Do(c, s, l).cells| && SoloAt(Do(c, s, l), h)
  {
    match l
    case RunCheck(g, net) => SoloCheck(c, s, g, net, h);
    case RunPost(g, net) => SoloPost(c, s, g, net, h);
    case CheckGroup(v, net) => SoloVerify(c, s, v, net, h);
  }

  lemma SoloCells(c: Machine, s: State, l: Label, h: nat)
    requires Inv(c, s) && Solo(s) && Enabled(c, s, l) && !c.site.streaming
    requires h < |Do(c, s, l).cells| && (!l.Visit? ==> h < |s.cells|)
    ensures SoloAt(Do(c, s, l), h)
  {
    if l.Visit? {
      SoloVisit(c, s, l.id, h);
    } else if l.RunCheck? || l.RunPost? || l.CheckGroup? {
      SoloWrites(c, s, l, h);
    } else if l.Send? || l.SpawnSubscriber? || l.RunPrune? || l.Finish? {
      SoloMoves(c, s, l, h);
    } else {
      PassesUntouched(c, s, l);
      SoloSame(s, Do(c, s, l), h);
    }
  }

  lemma OnlyVisitsAdd(c: Machine, s: State, l: Label)
    requires Enabled(c, s, l) && !l.Visit?
    ensures |Do(c, s, l).cells| == |s.cells|
  {
    match l
    case RunCheck(g, net) => assert |HandleCheck(c, s, g, net).cells| == |s.cells|;
    case RunPost(g, net) => assert |HandlePost(c, s, g, net).cells| == |s.cells|;
    case CheckGroup(v, net) => assert |CheckRecorded(c, s, v, net).cells| == |s.cells|;
    case _ =>
  }

  /** A verify goroutine existed before, or starts for a record that reads COMPLETE. */
  ghost predicate ForComplete(s: State, v: nat, g: nat) {
    g < |s.cells| && ((v in s.verifiers && s.verifiers[v].gen == g) || s.cells[g].status == COMPLETE)
  }

  lemma TakenIsComplete(s: State, k: nat, v: nat)
    requires VerifiersOk(s.verifiers, |s.cells|) && s.verify != [] && s.verify[0] < |s.cells| && v in TakeFromVerify(s, k).verifiers
    ensures ForComplete(s, v, TakeFromVerify(s, k).verifiers[v].gen)
  {
  }

  lemma VerifierComesFrom(c: Machine, s: State, l: Label, v: nat)
    requires Inv(c, s) && Enabled(c, s, l) && v in Do(c, s, l).verifiers
    ensures ForComplete(s, v, Do(c, s, l).verifiers[v].gen)
  {
    match l
    case TakeVerify(k) => TakenIsComplete(s, k, v);
    case StartVerify(k) => assert StartChecks(s, k).verifiers[v].gen == s.verifiers[v].gen;
    case EndVerify(k) =>
    case CheckGroup(k, net) => assert CheckRecorded(c, s, k, net).verifiers[v].gen == s.verifiers[v].gen;
    case _ => VerifiersStay(c, s, l);
  }

  lemma SoloStep(c: Machine, s: State, l: Label)
    requires Inv(c, s) && Solo(s) && Enabled(c, s, l) && !c.site.streaming
    ensures Solo(Do(c, s, l))
  {
    var s' := Do(c, s, l);
    if !l.Visit? {
      OnlyVisitsAdd(c, s, l);
    }
    forall h | 0 <= h < |s'.cells| ensures SoloAt(s', h) {
      SoloCells(c, s, l, h);
    }
    forall v | v in s'.verifiers ensures !Early(s', s'.verifiers[v].gen) {
      VerifierComesFrom(c, s, l, v);
      var g := s'.verifiers[v].gen;
      assert SoloAt(s, g);
      EarlyStep(c, s, l, g);
    }
  }

  lemma PostersAreEarly(s: State, h: nat, k: nat, id: string, g: Group)
    requires Solo(s) && Poster(s, h, id, g) && Poster(s, k, id, g)
    ensures h == k
  {
    assert Early(s, h) && Early(s, k);
    assert SoloAt(s, h) && SoloAt(s, k);
  }

  /** With streaming off a pass has one group, its ERROR comes too late to start an overlapping POST, and
      no run has a race. */
  lemma {:induction false} SingleGroupIsRaceFree(c: Machine, s: State, ls: seq<Label>, id: string, g: Group)
    requires Initial(s) && Runs(c, s, ls) && !c.site.streaming
    ensures Solo(After(c, s, ls)) && RaceFree(c, s, ls, id, g)
    decreases |ls|
  {
    if ls == [] {
    } else {
      var last := |ls| - 1;
      var t, l := After(c, s, ls[..last]), ls[last];
      SingleGroupIsRaceFree(c, s, ls[..last], id, g);
      InitialInv(c, s);
      InvHolds(c, s, ls[..last]);
      SoloStep(c, t, l);
      if CreatesFor(c, t, l, id, g) {
        forall h | h in t.subscribers && Poster(t, h, id, g) ensures h == l.gen {
          PostersAreEarly(t, h, l.gen, id, g);
        }
      }
    }
  }

  // ------------------------------------------------ passes of one endpoint can overlap

  lemma {:induction false} NothingToBlame(c: Machine, s: State, ls: seq<Label>, g: nat)
    requires Runs(c, s, ls) && forall k | 0 <= k < |ls| :: !ls[k].CheckGroup?
    ensures !Blamed(c, s, ls, g)
    decreases |ls|
  {
    if ls == [] {
    } else {
      NothingToBlame(c, s, ls[..|ls| - 1], g);
    }
  }

  lemma OverlapStage(c: Machine, s: State, id: string, dead: Net)
    requires Initial(s) && !c.skips(id) && Dead(dead)
    ensures var ls := BadStart(id, 0, dead);
            && Runs(c, s, ls)
            && Stage(After(c, s, ls), id, map[id := 0], [Cells(id, ERROR, [])], map[0 := Subscribing(Groups(c.site)[1..])], BmcOf(s, id))
  {
    var t := BadStartLeads(c, s, id, dead, map[], [], map[], BmcOf(s, id));
    assert [] + [Cells(id, ERROR, [])] == [Cells(id, ERROR, [])];
  }

  /** Without the condition that no pass is under way, `RequeueNeedsFailedCheck` fails: after one failed
      check a scan re-queues an endpoint whose goroutine is still running, and verify has done nothing. */
  lemma OverlapIsPossible(c: Machine, s: State, id: string, dead: Net)
    requires Initial(s) && !c.skips(id) && Dead(dead)
    ensures var ls := BadStart(id, 0, dead) + [ScanStart({id})];
            && Runs(c, s, ls)
            && var t := After(c, s, ls);
               && Enabled(c, t, Visit(id)) && id in t.current && Requeues(t, id)
               && t.current[id] in t.subscribers && !Blamed(c, s, ls, t.current[id])
  {
    OverlapStage(c, s, id, dead);
    var ls := BadStart(id, 0, dead);
    Extend(c, s, ls, ScanStart({id}));
    NothingToBlame(c, s, ls + [ScanStart({id})], 0);
  }

  // ------------------------------------------------ and then two POSTs can race

  /** No DELETE fails straight after a failed PATCH. */
  ghost predicate Tame(net: Net) {
    forall oid :: !(net.fails(PatchContext(oid)) && net.fails(DeleteSubscription(oid))) || net.fails(ListSubscriptions)
  }

  lemma {:induction false} TameScan(c: Site, id: string, g: Group, net: Net, todo: seq<string>, m: seq<Member>)
    requires Tame(net) && !net.fails(ListSubscriptions)
    ensures !ScanFrom(c, id, g, net, todo, m).stuck
    decreases |todo|
  {
    if todo == [] {
    } else {
      TameScan(c, id, g, net, todo[1..], m);
      TameScan(c, id, g, net, todo[1..], Remove(m, todo[0]));
    }
  }

  lemma TameOp(c: Site, id: string, g: Group, op: Op, m: seq<Member>)
    requires op.CheckOp? ==> Tame(op.net)
    ensures StuckBy(c, id, g, op, m) == 0
  {
    if op.CheckOp? && op.group == g && !op.net.fails(ListSubscriptions) {
      TameScan(c, id, g, op.net, Oids(m), m);
    }
  }

  lemma StuckStep(c: Site, id: string, g: Group, ops: seq<Op>, op: Op, m: seq<Member>)
    ensures StuckDeletes(c, id, g, ops + [op], m) == StuckDeletes(c, id, g, ops, m) + StuckBy(c, id, g, op, ApplyAll(c, id, ops, m))
  {
    assert (ops + [op])[..|ops|] == ops;
  }

  ghost predicate AllTame(ls: seq<Label>) {
    forall k | 0 <= k < |ls| :: ls[k].RunCheck? ==> Tame(ls[k].net)
  }

  lemma {:induction false} TameRun(c: Machine, s: State, ls: seq<Label>, id: string, g: Group)
    requires Runs(c, s, ls) && AllTame(ls)
    ensures StuckDeletes(c.site, id, g, OpsOn(c, s, ls, id), BmcOf(s, id)) == 0
    decreases |ls|
  {
    if ls == [] {
    } else {
      var last := |ls| - 1;
      TameRun(c, s, ls[..last], id, g);
      var ops, op := OpsOn(c, s, ls[..last], id), OpOn(c, After(c, s, ls[..last]), ls[last], id);
      if op.Some? {
        StuckStep(c.site, id, g, ops, op.value, BmcOf(s, id));
        TameOp(c.site, id, g, op.value, ApplyAll(c.site, id, ops, BmcOf(s, id)));
      } else {
        assert ops + [] == ops;
      }
    }
  }

  /** Two passes of one endpoint whose first check failed. */
  function BothStarted(id: string, dead: Net): seq<Label> {
    BadStart(id, 0, dead) + BadStart(id, 1, dead)
  }

  /** Both find the telemetry group missing before either of them POSTs it. */
  function BothPost(willing: Net): seq<Label> {
    [RunCheck(0, willing)] + [RunCheck(1, willing)] + [RunPost(0, willing)] + [RunPost(1, willing)]
  }

  lemma BothStartedLeads(c: Machine, s: State, id: string, dead: Net) returns (t: State)
    requires Initial(s) && !c.skips(id) && c.site.streaming && BmcOf(s, id) == [] && Dead(dead)
    ensures Leads(c, s, BothStarted(id, dead), t)
    ensures Stage(t, id, map[id := 1], [Cells(id, ERROR, []), Cells(id, ERROR, [])],
                  map[0 := Subscribing([TELEMETRY]), 1 := Subscribing([TELEMETRY])], [])
  {
    assert Groups(c.site)[1..] == [TELEMETRY];
    OverlapStage(c, s, id, dead);
    var t1 := After(c, s, BadStart(id, 0, dead));
    var one := [Cells(id, ERROR, [])];
    t := BadStartLeads(c, t1, id, dead, map[id := 0], one, map[0 := Subscribing([TELEMETRY])], []);
    LeadsConcat(c, s, BadStart(id, 0, dead), t1, BadStart(id, 1, dead), t);
    assert map[id := 0][id := 1] == map[id := 1];
    assert one + one == [Cells(id, ERROR, []), Cells(id, ERROR, [])];
  }

  lemma BothChecked(c: Machine, t: State, id: string, willing: Net) returns (u: State)
    requires Stage(t, id, map[id := 1], [Cells(id, ERROR, []), Cells(id, ERROR, [])],
                   map[0 := Subscribing([TELEMETRY]), 1 := Subscribing([TELEMETRY])], []) && Willing(willing)
    ensures Leads(c, t, [RunCheck(0, willing)] + [RunCheck(1, willing)], u)
    ensures Stage(u, id, map[id := 1], [Cells(id, ERROR, []), Cells(id, ERROR, [])],
                  map[0 := Posting([TELEMETRY]), 1 := Posting([TELEMETRY])], [])
  {
    var current, cells := map[id := 1], [Cells(id, ERROR, []), Cells(id, ERROR, [])];
    var w := Subscribing([TELEMETRY]);
    var t1 := CheckedEmpty(c, t, id, 0, willing, current, cells, map[0 := w, 1 := w]);
    assert map[0 := w, 1 := w][0 := Posting([TELEMETRY])] == map[0 := Posting([TELEMETRY]), 1 := w];
    u := CheckedEmpty(c, t1, id, 1, willing, current, cells, map[0 := Posting([TELEMETRY]), 1 := w]);
    assert map[0 := Posting([TELEMETRY]), 1 := w][1 := Posting([TELEMETRY])] == map[0 := Posting([TELEMETRY]), 1 := Posting([TELEMETRY])];
    LeadsConcat(c, t, [RunCheck(0, willing)], t1, [RunCheck(1, willing)], u);
  }

  lemma BothPosted(c: Machine, t: State, id: string, willing: Net) returns (u: State)
    requires Stage(t, id, map[id := 1], [Cells(id, ERROR, []), Cells(id, ERROR, [])],
                   map[0 := Posting([TELEMETRY]), 1 := Posting([TELEMETRY])], []) && Willing(willing)
    ensures Leads(c, t, [RunPost(0, willing)] + [RunPost(1, willing)], u)
    ensures BmcOf(u, id) == Post(c.site, id, TELEMETRY, willing, Post(c.site, id, TELEMETRY, willing, []))
  {
    var current, cells := map[id := 1], [Cells(id, ERROR, []), Cells(id, ERROR, [])];
    var subs := map[0 := Posting([TELEMETRY]), 1 := Posting([TELEMETRY])];
    var t1 := PostedWilling(c, t, id, 0, willing, current, cells, subs, []);
    u := PostedWilling(c, t1, id, 1, willing, current, t1.cells, t1.subscribers, Post(c.site, id, TELEMETRY, willing, []));
    LeadsConcat(c, t, [RunPost(0, willing)], t1, [RunPost(1, willing)], u);
  }

  lemma BothAreTame(id: string, dead: Net, willing: Net)
    requires Dead(dead) && Willing(willing)
    ensures AllTame(BothStarted(id, dead) + BothPost(willing))
  {
    assert AllTame(BadStart(id, 0, dead)) && AllTame(BadStart(id, 1, dead)) && AllTame(BothPost(willing));
  }

  lemma BothLead(c: Machine, s: State, id: string, dead: Net, willing: Net) returns (t: State)
    requires Initial(s) && !c.skips(id) && c.site.streaming && BmcOf(s, id) == [] && Dead(dead) && Willing(willing)
    ensures Leads(c, s, BothStarted(id, dead) + BothPost(willing), t)
    ensures BmcOf(t, id) == Post(c.site, id, TELEMETRY, willing, Post(c.site, id, TELEMETRY, willing, []))
  {
    var t1 := BothStartedLeads(c, s, id, dead);
    var t2 := BothChecked(c, t1, id, willing);
    t := BothPosted(c, t2, id, willing);
    var checks, posts := [RunCheck(0, willing)] + [RunCheck(1, willing)], [RunPost(0, willing)] + [RunPost(1, willing)];
    LeadsConcat(c, t1, checks, t2, posts, t);
    assert checks + posts == BothPost(willing);
    LeadsConcat(c, s, BothStarted(id, dead), t1, BothPost(willing), t);
  }

  /** From the start, with streaming on: two passes of one endpoint overlap, both POST the telemetry group,
      and the BMC holds two matches although it began with none and no DELETE failed. */
  lemma TwoPostsRace(c: Machine, s: State, id: string, dead: Net, willing: Net)
    requires Initial(s) && !c.skips(id) && c.site.streaming && BmcOf(s, id) == [] && Dead(dead) && Willing(willing)
    ensures var ls := BothStarted(id, dead) + BothPost(willing);
            && Runs(c, s, ls)
            && Count(c.site, id, TELEMETRY, BmcOf(After(c, s, ls), id)) == 2
            && !SimplyBounded(c, s, ls, id, TELEMETRY)
  {
    var ls := BothStarted(id, dead) + BothPost(willing);
    var t := BothLead(c, s, id, dead, willing);
    PostCount(c.site, id, TELEMETRY, TELEMETRY, willing, []);
    PostCount(c.site, id, TELEMETRY, TELEMETRY, willing, Post(c.site, id, TELEMETRY, willing, []));
    BothAreTame(id, dead, willing);
    TameRun(c, s, ls, id, TELEMETRY);
    assert Count(c.site, id, TELEMETRY, []) == 0;
  }

  lemma RaceExists(c: Machine, id: string)
    requires !c.skips(id) && c.site.streaming
    ensures exists s, ls :: Initial(s) && Runs(c, s, ls) && !SimplyBounded(c, s, ls, id, TELEMETRY)
  {
    var s := State(0, false, {}, Nothing, map[], [], [], [], map[], map[], map[]);
    var dead := Net((r: Request) => true, 0, "", []);
    var willing := Net((r: Request) => false, 201, "", []);
    TwoPostsRace(c, s, id, dead, willing);
  }

  /** The simple bound holds in every run, for every endpoint and group, if and only if telemetry streaming is
      off (provided the site has an endpoint that is not left out). */
  lemma BoundIffNotStreaming(c: Machine, id: string)
    requires !c.skips(id)
    ensures (forall s, ls, e, g :: Initial(s) && Runs(c, s, ls) && g in Groups(c.site) ==> SimplyBounded(c, s, ls, e, g))
            <==> !c.site.streaming
  {
    if c.site.streaming {
      RaceExists(c, id);
      var s, ls :| Initial(s) && Runs(c, s, ls) && !SimplyBounded(c, s, ls, id, TELEMETRY);
      assert TELEMETRY in Groups(c.site);
    } else {
      forall s, ls, e, g | Initial(s) && Runs(c, s, ls) && g in Groups(c.site) ensures SimplyBounded(c, s, ls, e, g) {
        SingleGroupIsRaceFree(c, s, ls, e, g);
        RaceFreeRunsAreBounded(c, s, ls, e, g);
      }
    }
  }
}
