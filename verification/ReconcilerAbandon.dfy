/**
 The retry the comments of `rfSubscribe` promise does not reach every endpoint: a pass ends by
 writing COMPLETE whatever happened, and verify only checks recorded groups.  An endpoint whose
 pass recorded nothing is never contacted again, in any continuation.
 */
module ReconcilerAbandon {
  import opened Basics
  import opened Subscriptions
  import opened Reconciler
  import opened ReconcilerSafety
  import opened ReconcilerHistory
  import opened ReconcilerRepair
  import opened ReconcilerRuns

  /** No goroutine and no queue entry of generation `h` will send another request. */
  ghost predicate Quiet(s: State, h: nat)
    requires h < |s.cells|
  {
    && !Owned(s, h)
    && (h in s.verify || s.sending == ToVerify(h) ==> s.cells[h].prefixes == [])
    && forall v | v in s.verifiers && s.verifiers[v].gen == h ::
         if s.verifiers[v].Spawned? then s.cells[h].prefixes == [] else s.verifiers[v].todo == []
  }

  ghost predicate AllQuiet(s: State, id: string) {
    forall h | 0 <= h < |s.cells| && s.cells[h].id == id :: Quiet(s, h)
  }

  ghost predicate Abandoned(s: State, id: string) {
    && id in s.current && s.current[id] < |s.cells|
    && s.cells[s.current[id]] == Cells(id, COMPLETE, [])
    && AllQuiet(s, id)
  }

  /** The program sends requests to the BMC of `id`. */
  predicate Contacts(c: Machine, s: State, l: Label, id: string)
    requires Enabled(c, s, l)
  {
    !l.Forget? && OpOn(c, s, l, id).Some?
  }

  lemma AbandonedIsNotContacted(c: Machine, s: State, l: Label, id: string)
    requires Abandoned(s, id) && Enabled(c, s, l)
    ensures !Contacts(c, s, l, id)
  {
  }

  // ------------------------------------------------ abandonment is permanent

  lemma AbandonedVisit(c: Machine, s: State, e: string, id: string)
    requires Inv(c, s) && Abandoned(s, id) && Enabled(c, s, Visit(e))
    ensures Abandoned(VisitEndpoint(c, s, e), id)
  {
    var s' := VisitEndpoint(c, s, e);
    forall h | 0 <= h < |s'.cells| && s'.cells[h].id == id ensures Quiet(s', h) {
      assert h < |s.cells| && s'.cells[h] == s.cells[h];
      assert Quiet(s, h);
    }
  }

  lemma AbandonedSend(c: Machine, s: State, l: Label, id: string)
    requires Abandoned(s, id) && Enabled(c, s, l) && (l.ScanStart? || l.ScanEnd? || l.Send? || l.Forget?)
    ensures Abandoned(Do(c, s, l), id)
  {
    var s' := Do(c, s, l);
    forall h | 0 <= h < |s'.cells| && s'.cells[h].id == id ensures Quiet(s', h) {
      assert Quiet(s, h);
    }
  }

  lemma AbandonedSpawn(c: Machine, s: State, id: string)
    requires Abandoned(s, id) && Enabled(c, s, SpawnSubscriber)
    ensures Abandoned(Do(c, s, SpawnSubscriber), id)
  {
    var s' := Do(c, s, SpawnSubscriber);
    assert s.pending == [s.pending[0]] + s.pending[1..];
    forall h | 0 <= h < |s'.cells| && s'.cells[h].id == id ensures Quiet(s', h) {
      assert Quiet(s, h);
      assert s.pending[0] in s.pending;
    }
  }

  /** A subscribe goroutine works for some other endpoint. */
  lemma AbandonedSubscriber(s: State, s': State, g: nat, id: string)
    requires Abandoned(s, id) && g in s.subscribers && g < |s.cells| == |s'.cells|
    requires s'.cells == s.cells[g := s'.cells[g]] && s'.cells[g].id == s.cells[g].id
    requires s'.current == s.current && s'.sending == s.sending && s'.pending == s.pending
    requires s'.verify == s.verify && s'.verifiers == s.verifiers
    requires forall h | h != g :: h in s'.subscribers <==> h in s.subscribers
    ensures Abandoned(s', id)
  {
    assert s.cells[g].id != id;
    forall h | 0 <= h < |s'.cells| && s'.cells[h].id == id ensures Quiet(s', h) {
      assert h != g && s'.cells[h] == s.cells[h];
      assert Quiet(s, h);
    }
  }

  lemma AbandonedRunCheck(c: Machine, s: State, g: nat, net: Net, id: string)
    requires Abandoned(s, id) && Enabled(c, s, RunCheck(g, net))
    ensures Abandoned(HandleCheck(c, s, g, net), id)
  {
    AbandonedSubscriber(s, HandleCheck(c, s, g, net), g, id);
  }

  lemma AbandonedRunPost(c: Machine, s: State, g: nat, net: Net, id: string)
    requires Abandoned(s, id) && Enabled(c, s, RunPost(g, net))
    ensures Abandoned(HandlePost(c, s, g, net), id)
  {
    AbandonedSubscriber(s, HandlePost(c, s, g, net), g, id);
  }

  /** Only the verify side of the state changes, and nothing with groups to check is added for `h`. */
  lemma QuietVerifySide(s: State, verify: seq<nat>, verifiers: map<nat, Verifier>, h: nat)
    requires h < |s.cells| && Quiet(s, h) && (h in verify ==> h in s.verify)
    requires forall v | v in verifiers && verifiers[v].gen == h ::
               (v in s.verifiers && s.verifiers[v] == verifiers[v]) || (verifiers[v].Spawned? && s.cells[h].prefixes == [])
    ensures Quiet(s.(verify := verify, verifiers := verifiers), h)
  {
  }

  lemma AbandonedTake(s: State, v: nat, id: string)
    requires Abandoned(s, id) && s.verify != [] && s.verify[0] < |s.cells| && v !in s.verifiers
    ensures Abandoned(TakeFromVerify(s, v), id)
  {
    var s' := TakeFromVerify(s, v);
    assert s.verify == [s.verify[0]] + s.verify[1..];
    forall h | 0 <= h < |s.cells| && s.cells[h].id == id ensures Quiet(s', h) {
      QuietVerifySide(s, s'.verify, s'.verifiers, h);
    }
  }

  lemma AbandonedVerifier(c: Machine, s: State, l: Label, id: string)
    requires Abandoned(s, id) && Enabled(c, s, l) && (l.StartVerify? || l.EndVerify?)
    ensures Abandoned(Do(c, s, l), id)
  {
    var s' := Do(c, s, l);
    forall h | 0 <= h < |s'.cells| && s'.cells[h].id == id ensures Quiet(s', h) {
      assert Quiet(s, h);
    }
  }

  lemma AbandonedWriteCheck(s: State, v: nat, g: nat, missing: bool, m: seq<Member>, id: string)
    requires Abandoned(s, id) && g < |s.cells|
    requires v in s.verifiers && s.verifiers[v].Verifying? && s.verifiers[v].todo != [] && s.verifiers[v].gen == g
    ensures Abandoned(WriteCheck(s, v, g, s.verifiers[v].todo[1..], missing, m), id)
  {
    var s' := WriteCheck(s, v, g, s.verifiers[v].todo[1..], missing, m);
    assert s.cells[g].id != id;
    forall h | 0 <= h < |s'.cells| && s'.cells[h].id == id ensures Quiet(s', h) {
      assert h != g && s'.cells[h] == s.cells[h];
      assert Quiet(s, h);
    }
  }

  lemma AbandonedCheckGroup(c: Machine, s: State, v: nat, net: Net, id: string)
    requires Abandoned(s, id) && Enabled(c, s, CheckGroup(v, net))
    ensures Abandoned(CheckRecorded(c, s, v, net), id)
  {
    var g, gs := s.verifiers[v].gen, s.verifiers[v].todo;
    var scan := IsDup(c.site, s.cells[g].id, gs[0], net, BmcOf(s, s.cells[g].id));
    AbandonedWriteCheck(s, v, g, scan.check != Present, scan.members, id);
  }

  lemma AbandonedPass(c: Machine, s: State, l: Label, id: string)
    requires Abandoned(s, id) && Enabled(c, s, l) && (l.RunPrune? || l.Finish?)
    ensures Abandoned(Do(c, s, l), id)
  {
    match l
    case RunPrune(g, net) => AbandonedSubscriber(s, PruneBmc(c, s, g, net), g, id);
    case Finish(g) => AbandonedSubscriber(s, FinishPass(s, g), g, id);
  }

  lemma AbandonedStep(c: Machine, s: State, l: Label, id: string)
    requires Inv(c, s) && Abandoned(s, id) && Enabled(c, s, l)
    ensures Abandoned(Do(c, s, l), id)
  {
    match l
    case Visit(e) => AbandonedVisit(c, s, e, id);
    case SpawnSubscriber => AbandonedSpawn(c, s, id);
    case RunPrune(_, _) => AbandonedPass(c, s, l, id);
    case RunCheck(g, net) => AbandonedRunCheck(c, s, g, net, id);
    case RunPost(g, net) => AbandonedRunPost(c, s, g, net, id);
    case Finish(_) => AbandonedPass(c, s, l, id);
    case TakeVerify(v) => AbandonedTake(s, v, id);
    case StartVerify(v) => AbandonedVerifier(c, s, l, id);
    case EndVerify(v) => AbandonedVerifier(c, s, l, id);
    case CheckGroup(v, net) => AbandonedCheckGroup(c, s, v, net, id);
    case _ => AbandonedSend(c, s, l, id);
  }

  /** Some step of a run contacts the endpoint. */
  predicate ContactedIn(c: Machine, s: State, ls: seq<Label>, id: string)
    requires Runs(c, s, ls)
    decreases |ls|
  {
    ls != [] &&
    var last := |ls| - 1;
    ContactedIn(c, s, ls[..last], id) || Contacts(c, After(c, s, ls[..last]), ls[last], id)
  }

  /** In every continuation an abandoned endpoint stays COMPLETE and uncontacted. */
  lemma {:induction false} AbandonedForever(c: Machine, s: State, ls: seq<Label>, id: string)
    requires Inv(c, s) && Abandoned(s, id) && Runs(c, s, ls)
    ensures Abandoned(After(c, s, ls), id) && !ContactedIn(c, s, ls, id)
    decreases |ls|
  {
    if ls == [] {
    } else {
      var last := |ls| - 1;
      AbandonedForever(c, s, ls[..last], id);
      InvHolds(c, s, ls[..last]);
      AbandonedIsNotContacted(c, After(c, s, ls[..last]), ls[last], id);
      AbandonedStep(c, After(c, s, ls[..last]), ls[last], id);
    }
  }

  // ------------------------------------------------ how an endpoint gets there

  lemma NoneOutOfNone(a: seq<Group>, b: seq<Group>)
    requires b == [] && forall h | h in a :: h in b
    ensures a == []
  {
    if a != [] {
      HeadIsMember(a);
    }
  }

  lemma HeadIsMember(a: seq<Group>)
    requires a != []
    ensures a[0] in a
  {
  }

  /** The end of a pass that recorded nothing abandons its endpoint. */
  lemma UnrecordedPassAbandons(c: Machine, s: State, g: nat)
    requires Inv(c, s) && ChecksRecorded(s) && Enabled(c, s, Finish(g))
    requires var id := s.cells[g].id; id in s.current && s.current[id] == g
    requires s.cells[g].prefixes == []
    requires forall h | 0 <= h < |s.cells| && h != g && s.cells[h].id == s.cells[g].id :: Quiet(s, h)
    ensures Abandoned(Do(c, s, Finish(g)), s.cells[g].id)
  {
    var s' := Do(c, s, Finish(g));
    forall h | 0 <= h < |s'.cells| && s'.cells[h].id == s.cells[g].id ensures Quiet(s', h) {
      if h != g {
        assert Quiet(s, h);
      } else {
        forall v | v in s.verifiers && s.verifiers[v].gen == g && s.verifiers[v].Verifying?
          ensures s.verifiers[v].todo == []
        {
          NoneOutOfNone(s.verifiers[v].todo, s.cells[g].prefixes);
        }
      }
    }
  }

  function Repeat(l: Label, n: nat): seq<Label> {
    if n == 0 then [] else Repeat(l, n - 1) + [l]
  }

  /** The first steps of a pass whose every request fails: `n` groups are handled. */
  function DeadSteps(g: nat, net: Net, n: nat): seq<Label> {
    [RunPrune(g, net)] + Repeat(RunCheck(g, net), n)
  }

  function DeadPass(c: Machine, g: nat, net: Net): seq<Label> {
    DeadSteps(g, net, |Groups(c.site)|) + [Finish(g)]
  }

  /** Nothing but the progress of one subscribe goroutine differs. */
  ghost predicate OnlyProgress(s: State, s': State, g: nat) {
    && g < |s.cells| == |s'.cells|
    && s' == s.(cells := s'.cells, subscribers := s'.subscribers, bmcs := s'.bmcs)
    && s'.cells[g].id == s.cells[g].id && s'.cells[g].prefixes == []
    && (forall h | 0 <= h < |s.cells| && h != g :: s'.cells[h] == s.cells[h])
    && (forall h | h != g :: h in s'.subscribers <==> h in s.subscribers)
  }

  /** The goroutine of `g` has handled `n` groups, recorded none, and written ERROR for each. */
  ghost predicate DeadAt(c: Machine, s: State, t: State, g: nat, n: nat)
    requires n <= |Groups(c.site)|
  {
    && OnlyProgress(s, t, g) && g in t.subscribers && t.subscribers[g] == Subscribing(Groups(c.site)[n..])
    && t.cells[g].status == if n == 0 then PENDING else ERROR
  }

  lemma DeadPrune(c: Machine, s: State, g: nat, net: Net)
    requires Inv(c, s) && g in s.subscribers && s.subscribers[g] == Pruning
    ensures Runs(c, s, [RunPrune(g, net)]) && DeadAt(c, s, After(c, s, [RunPrune(g, net)]), g, 0)
  {
    assert Fresh(s, g);
    Extend(c, s, [], RunPrune(g, net));
    assert [] + [RunPrune(g, net)] == [RunPrune(g, net)];
    assert Groups(c.site)[0..] == Groups(c.site);
  }

  lemma DeadIteration(c: Machine, s: State, t: State, g: nat, net: Net, n: nat)
    requires Dead(net) && n < |Groups(c.site)| && DeadAt(c, s, t, g, n)
    ensures Enabled(c, t, RunCheck(g, net)) && DeadAt(c, s, Do(c, t, RunCheck(g, net)), g, n + 1)
  {
    assert Checked(c, t, g, net).status == Some(ERROR);
    assert Groups(c.site)[n..][1..] == Groups(c.site)[n + 1..];
  }

  ghost predicate DeadRun(c: Machine, s: State, ls: seq<Label>, g: nat, n: nat)
    requires n <= |Groups(c.site)|
  {
    Runs(c, s, ls) && DeadAt(c, s, After(c, s, ls), g, n)
  }

  lemma DeadExtend(c: Machine, s: State, ls: seq<Label>, g: nat, net: Net, n: nat)
    requires Dead(net) && n < |Groups(c.site)| && DeadRun(c, s, ls, g, n)
    ensures DeadRun(c, s, ls + [RunCheck(g, net)], g, n + 1)
  {
    DeadIteration(c, s, After(c, s, ls), g, net, n);
    Extend(c, s, ls, RunCheck(g, net));
  }

  lemma {:induction false} DeadIterations(c: Machine, s: State, ls: seq<Label>, g: nat, net: Net, n: nat)
    requires Dead(net) && n <= |Groups(c.site)| && DeadRun(c, s, ls, g, 0)
    ensures DeadRun(c, s, ls + Repeat(RunCheck(g, net), n), g, n)
  {
    var l := RunCheck(g, net);
    if n == 0 {
      assert ls + Repeat(l, 0) == ls;
    } else {
      DeadIterations(c, s, ls, g, net, n - 1);
      DeadExtend(c, s, ls + Repeat(l, n - 1), g, net, n - 1);
      assert ls + Repeat(l, n - 1) + [l] == ls + Repeat(l, n);
    }
  }

  /** Nothing of an older generation of the endpoint of `g` is left to run. */
  ghost predicate OthersQuiet(s: State, g: nat)
    requires g < |s.cells|
  {
    forall h | 0 <= h < |s.cells| && h != g && s.cells[h].id == s.cells[g].id :: Quiet(s, h)
  }

  /** One outage during the pass of an endpoint is enough to lose it for good, although ERROR is written for
      every group. */
  lemma OutageAbandons(c: Machine, s: State, g: nat, net: Net)
    requires Inv(c, s) && ChecksRecorded(s) && Dead(net) && g in s.subscribers && s.subscribers[g] == Pruning
    requires (var id := s.cells[g].id; id in s.current && s.current[id] == g) && OthersQuiet(s, g)
    ensures forall n | 0 < n <= |Groups(c.site)| :: DeadRun(c, s, DeadSteps(g, net, n), g, n)
    ensures Runs(c, s, DeadPass(c, g, net))
    ensures Abandoned(After(c, s, DeadPass(c, g, net)), s.cells[g].id)
  {
    DeadPrune(c, s, g, net);
    forall n | 0 <= n <= |Groups(c.site)| ensures DeadRun(c, s, DeadSteps(g, net, n), g, n) {
      DeadIterations(c, s, [RunPrune(g, net)], g, net, n);
    }
    OutageEnds(c, s, DeadSteps(g, net, |Groups(c.site)|), g);
  }

  lemma OutageEnds(c: Machine, s: State, ls: seq<Label>, g: nat)
    requires Inv(c, s) && ChecksRecorded(s) && g in s.subscribers && s.subscribers[g] == Pruning
    requires (var id := s.cells[g].id; id in s.current && s.current[id] == g) && OthersQuiet(s, g)
    requires DeadRun(c, s, ls, g, |Groups(c.site)|)
    ensures Runs(c, s, ls + [Finish(g)]) && Abandoned(After(c, s, ls + [Finish(g)]), s.cells[g].id)
  {
    assert Groups(c.site)[|Groups(c.site)|..] == [];
    assert Fresh(s, g);
    var t := After(c, s, ls);
    InvHolds(c, s, ls);
    Extend(c, s, ls, Finish(g));
    forall h | 0 <= h < |t.cells| && h != g && t.cells[h].id == t.cells[g].id ensures Quiet(t, h) {
      assert Quiet(s, h);
    }
    OutageChecks(s, t, g);
    UnrecordedPassAbandons(c, t, g);
  }

  /** The same from the very start: an endpoint that does not answer when it is found is never contacted
      again after its first pass. */
  lemma OutageFromStart(c: Machine, s: State, id: string, net: Net, more: seq<Label>)
    requires Initial(s) && !c.skips(id) && Dead(net)
    ensures var ls := Launch(id) + DeadPass(c, 0, net);
            && Runs(c, s, ls) && Abandoned(After(c, s, ls), id)
            && (Runs(c, After(c, s, ls), more) ==> !ContactedIn(c, After(c, s, ls), more, id))
  {
    var t := Launched(c, s, id, map[], [], map[], BmcOf(s, id));
    assert [] + [Cells(id, PENDING, [])] == [Cells(id, PENDING, [])];
    InitialInv(c, s);
    InvHolds(c, s, Launch(id));
    OutageAbandons(c, t, 0, net);
    var u := After(c, t, DeadPass(c, 0, net));
    LeadsConcat(c, s, Launch(id), t, DeadPass(c, 0, net), u);
    InvHolds(c, t, DeadPass(c, 0, net));
    if Runs(c, u, more) {
      AbandonedForever(c, u, more, id);
    }
  }

  lemma OutageChecks(s: State, t: State, g: nat)
    requires ChecksRecorded(s) && OnlyProgress(s, t, g) && s.cells[g].prefixes == []
    ensures ChecksRecorded(t)
  {
    forall v | v in t.verifiers && t.verifiers[v].Verifying?
      ensures t.verifiers[v].gen < |t.cells|
      ensures forall h | h in t.verifiers[v].todo :: h in t.cells[t.verifiers[v].gen].prefixes
    {
      assert s.verifiers[v] == t.verifiers[v];
    }
  }

  // ------------------------------------------------ and exactly when

  lemma {:induction false} ContactLater(c: Machine, s: State, a: seq<Label>, b: seq<Label>, id: string)
    requires Runs(c, s, a) && Runs(c, After(c, s, a), b) && ContactedIn(c, After(c, s, a), b, id)
    ensures Runs(c, s, a + b) && ContactedIn(c, s, a + b, id)
    decreases |b|
  {
    var last := |b| - 1;
    Concat(c, s, a, After(c, s, a), b);
    Concat(c, s, a, After(c, s, a), b[..last]);
    assert (a + b)[..|a + b| - 1] == a + b[..last];
    if !ContactedIn(c, After(c, s, a), b[..last], id) {
    } else {
      ContactLater(c, s, a, b[..last], id);
    }
  }

  /** All work is done and the endpoint reads COMPLETE. */
  ghost predicate Complete(c: Machine, s: State, id: string) {
    Inv(c, s) && Drained(s) && id in s.current && s.cells[s.current[id]].status == COMPLETE
  }

  /** A scan that lists only this endpoint and does not reach the verify frequency. */
  lemma QuietRound(c: Machine, s: State, id: string)
    requires Complete(c, s, id) && (s.scans + 1) % CHECK_FREQ != 0
    ensures Leads(c, s, [ScanStart({id})] + [Visit(id)] + [ScanEnd], s.(scans := s.scans + 1))
  {
    LeadsOne(c, s, ScanStart({id}));
    var t := Do(c, s, ScanStart({id}));
    LeadsExtend(c, s, [ScanStart({id})], t, Visit(id));
    var u := VisitEndpoint(c, t, id);
    assert {id} - {id} == {};
    LeadsExtend(c, s, [ScanStart({id})] + [Visit(id)], u, ScanEnd);
  }

  /** A scan that sends the endpoint to verification. */
  lemma CheckSent(c: Machine, s: State, id: string)
    requires Complete(c, s, id) && (s.scans + 1) % CHECK_FREQ == 0
    ensures Leads(c, s, [ScanStart({id})] + [Visit(id)] + [Send],
                  s.(scans := s.scans + 1, scanning := true, todo := {}, verify := [s.current[id]]))
  {
    LeadsOne(c, s, ScanStart({id}));
    var t := Do(c, s, ScanStart({id}));
    LeadsExtend(c, s, [ScanStart({id})], t, Visit(id));
    var u := VisitEndpoint(c, t, id);
    assert {id} - {id} == {};
    LeadsExtend(c, s, [ScanStart({id})] + [Visit(id)], u, Send);
  }

  lemma CheckTaken(c: Machine, t: State, g: nat)
    requires t.verify == [g] && g < |t.cells| && t.cells[g].status == COMPLETE && t.verifiers == map[]
    ensures Leads(c, t, [TakeVerify(0)] + [StartVerify(0)], t.(verify := [], verifiers := map[0 := Verifying(g, t.cells[g].prefixes)]))
  {
    LeadsOne(c, t, TakeVerify(0));
    var u := TakeFromVerify(t, 0);
    assert [g][1..] == [];
    LeadsExtend(c, t, [TakeVerify(0)], u, StartVerify(0));
    assert map[0 := Spawned(g)][0 := Verifying(g, t.cells[g].prefixes)] == map[0 := Verifying(g, t.cells[g].prefixes)];
  }

  lemma CheckContacts(c: Machine, u: State, g: nat, gs: seq<Group>, net: Net)
    requires u.verifiers == map[0 := Verifying(g, gs)] && gs != [] && g < |u.cells|
    ensures Enabled(c, u, CheckGroup(0, net)) && Contacts(c, u, CheckGroup(0, net), u.cells[g].id)
  {
  }

  lemma CheckRound(c: Machine, s: State, id: string)
    requires Complete(c, s, id) && (s.scans + 1) % CHECK_FREQ == 0 && s.cells[s.current[id]].prefixes != []
    ensures exists ls :: Runs(c, s, ls) && ContactedIn(c, s, ls, id)
  {
    var g, net := s.current[id], Net((r: Request) => true, 0, "", []);
    var t := s.(scans := s.scans + 1, scanning := true, todo := {}, verify := [g]);
    var u := t.(verify := [], verifiers := map[0 := Verifying(g, s.cells[g].prefixes)]);
    var a, b := [ScanStart({id})] + [Visit(id)] + [Send], [TakeVerify(0)] + [StartVerify(0)];
    CheckSent(c, s, id);
    CheckTaken(c, t, g);
    LeadsConcat(c, s, a, t, b, u);
    CheckContacts(c, u, g, s.cells[g].prefixes, net);
    ContactNow(c, s, a + b, u, CheckGroup(0, net), id);
  }

  lemma ContactNow(c: Machine, s: State, ls: seq<Label>, t: State, l: Label, id: string)
    requires Leads(c, s, ls, t) && Enabled(c, t, l) && Contacts(c, t, l, id)
    ensures Runs(c, s, ls + [l]) && ContactedIn(c, s, ls + [l], id)
  {
    Extend(c, s, ls, l);
    assert (ls + [l])[..|ls|] == ls;
  }

  lemma {:induction false} RecordedIsContacted(c: Machine, s: State, id: string)
    requires Complete(c, s, id) && s.cells[s.current[id]].prefixes != []
    ensures exists ls :: Runs(c, s, ls) && ContactedIn(c, s, ls, id)
    decreases CHECK_FREQ - 1 - s.scans % CHECK_FREQ
  {
    if (s.scans + 1) % CHECK_FREQ == 0 {
      CheckRound(c, s, id);
    } else {
      var a, t := [ScanStart({id})] + [Visit(id)] + [ScanEnd], s.(scans := s.scans + 1);
      QuietRound(c, s, id);
      InvHolds(c, s, a);
      RecordedIsContacted(c, t, id);
      var b :| Runs(c, t, b) && ContactedIn(c, t, b, id);
      ContactLater(c, s, a, b, id);
    }
  }

  /** Once the work is drained and an endpoint reads COMPLETE, the reconciler can ever contact it
      again if and only if its last pass recorded some group. */
  lemma RetryReach(c: Machine, s: State, id: string)
    requires Inv(c, s) && Drained(s) && id in s.current && s.cells[s.current[id]].status == COMPLETE
    ensures (exists ls :: Runs(c, s, ls) && ContactedIn(c, s, ls, id)) <==> s.cells[s.current[id]].prefixes != []
  {
    if s.cells[s.current[id]].prefixes != [] {
      RecordedIsContacted(c, s, id);
    } else {
      assert Abandoned(s, id);
      forall ls | Runs(c, s, ls) ensures !ContactedIn(c, s, ls, id) {
        AbandonedForever(c, s, ls, id);
      }
    }
  }
}
