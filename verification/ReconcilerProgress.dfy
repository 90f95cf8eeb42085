/** The reconciler always comes to rest: between two scans every run is bounded by a measure of the work in
    scan, channels and goroutines, and it can only stop when all of it is done. */
module ReconcilerProgress {
  import opened Subscriptions
  import opened SubscriptionFacts
  import opened PrefixGroups
  import opened Reconciler
  import opened ReconcilerSafety
  import opened ReconcilerHistory
  import opened ReconcilerRepair
  import opened ReconcilerRuns

  // ------------------------------------------------ sums over goroutines

  ghost function Weight<T>(m: map<nat, T>, w: T -> nat): nat
    decreases |m.Keys|
  {
    if m.Keys == {} then 0
    else
      var k :| k in m.Keys;
      assert (m - {k}).Keys == m.Keys - {k};
      w(m[k]) + Weight(m - {k}, w)
  }

  lemma {:induction false} WeightRemove<T>(m: map<nat, T>, w: T -> nat, k: nat)
    requires k in m
    ensures Weight(m, w) == w(m[k]) + Weight(m - {k}, w)
    decreases |m.Keys|
  {
    var j :| j in m.Keys && Weight(m, w) == w(m[j]) + Weight(m - {j}, w);
    assert (m - {j}).Keys == m.Keys - {j} && (m - {k}).Keys == m.Keys - {k};
    if j == k {
    } else {
      WeightRemove(m - {j}, w, k);
      WeightRemove(m - {k}, w, j);
      assert m - {j} - {k} == m - {k} - {j};
    }
  }

  lemma WeightPut<T>(m: map<nat, T>, w: T -> nat, k: nat, x: T)
    ensures Weight(m[k := x], w) + (if k in m then w(m[k]) else 0) == Weight(m, w) + w(x)
  {
    WeightRemove(m[k := x], w, k);
    assert m[k := x] - {k} == m - {k};
    if k in m {
      WeightRemove(m, w, k);
    } else {
      assert m - {k} == m;
    }
  }

  // ------------------------------------------------ the measure

  /** Steps a subscribe goroutine has ahead; a site has at most two groups. */
  function StepsLeft(w: Subscriber): nat {
    match w
    case Pruning => 6
    case Subscribing(todo) => 2 * |todo| + 1
    case Posting(todo) => 2 * |todo|
  }

  /** Steps a verify goroutine has ahead; a prefix list has at most two groups. */
  function ChecksLeft(w: Verifier): nat {
    match w
    case Spawned(_) => 4
    case Verifying(_, todo) => |todo| + 1
  }

  function SendsLeft(s: Sending): nat {
    match s
    case Nothing => 0
    case ToPending(_) => 8
    case ToVerify(_) => 6
  }

  function ScanWork(s: State): nat {
    (if s.scanning then 1 else 0) + 9 * |s.todo| + SendsLeft(s.sending) + 7 * |s.pending| + 5 * |s.verify|
  }

  ghost function Measure(s: State): nat {
    ScanWork(s) + Weight(s.subscribers, StepsLeft) + Weight(s.verifiers, ChecksLeft)
  }

  /** A step that works off what a scan has started. */
  predicate Works(l: Label) {
    !l.ScanStart? && !l.Forget?
  }

  ghost predicate Advances(s: State, t: State) {
    Measure(t) < Measure(s) && t.scans == s.scans
  }

  lemma VisitAdvances(c: Machine, s: State, e: string)
    requires Enabled(c, s, Visit(e))
    ensures Advances(s, VisitEndpoint(c, s, e))
  {
    assert |s.todo - {e}| == |s.todo| - 1;
  }

  lemma SpawnAdvances(c: Machine, s: State)
    requires Enabled(c, s, SpawnSubscriber)
    ensures Advances(s, Do(c, s, SpawnSubscriber))
  {
    WeightPut(s.subscribers, StepsLeft, s.pending[0], Pruning);
  }

  lemma SubscriberAdvances(s: State, g: nat, next: Subscriber, cells: seq<Cells>, bmcs: map<string, seq<Member>>)
    requires g in s.subscribers && StepsLeft(next) < StepsLeft(s.subscribers[g])
    ensures Advances(s, s.(cells := cells, subscribers := s.subscribers[g := next], bmcs := bmcs))
  {
    WeightPut(s.subscribers, StepsLeft, g, next);
  }

  lemma CheckAdvances(c: Machine, s: State, g: nat, net: Net)
    requires Enabled(c, s, RunCheck(g, net))
    ensures Advances(s, HandleCheck(c, s, g, net))
  {
    var gs, out, t := s.subscribers[g].todo, Checked(c, s, g, net), HandleCheck(c, s, g, net);
    SubscriberAdvances(s, g, if out.status.Some? then Subscribing(gs[1..]) else Posting(gs), t.cells, t.bmcs);
  }

  lemma PostAdvances(c: Machine, s: State, g: nat, net: Net)
    requires Enabled(c, s, RunPost(g, net))
    ensures Advances(s, HandlePost(c, s, g, net))
  {
    var t := HandlePost(c, s, g, net);
    SubscriberAdvances(s, g, Subscribing(s.subscribers[g].todo[1..]), t.cells, t.bmcs);
  }

  lemma FinishAdvances(c: Machine, s: State, g: nat)
    requires Enabled(c, s, Finish(g))
    ensures Advances(s, Do(c, s, Finish(g)))
  {
    WeightRemove(s.subscribers, StepsLeft, g);
  }

  lemma TakeAdvances(c: Machine, s: State, v: nat)
    requires Enabled(c, s, TakeVerify(v))
    ensures Advances(s, TakeFromVerify(s, v))
  {
    WeightPut(s.verifiers, ChecksLeft, v, Spawned(s.verify[0]));
  }

  lemma VerifierAdvances(s: State, v: nat, next: Verifier, cells: seq<Cells>, bmcs: map<string, seq<Member>>)
    requires v in s.verifiers && ChecksLeft(next) < ChecksLeft(s.verifiers[v])
    ensures Advances(s, s.(cells := cells, verifiers := s.verifiers[v := next], bmcs := bmcs))
  {
    WeightPut(s.verifiers, ChecksLeft, v, next);
  }

  lemma StartAdvances(c: Machine, s: State, v: nat)
    requires CellsOk(c, s.cells) && Enabled(c, s, StartVerify(v))
    ensures Advances(s, Do(c, s, StartVerify(v)))
  {
    var g := s.verifiers[v].gen;
    AtMostTwoGroups(c.site, s.cells[g].prefixes);
    VerifierAdvances(s, v, Verifying(g, s.cells[g].prefixes), s.cells, s.bmcs);
  }

  lemma CheckGroupAdvances(c: Machine, s: State, v: nat, net: Net)
    requires Enabled(c, s, CheckGroup(v, net))
    ensures Advances(s, CheckRecorded(c, s, v, net))
  {
    var t := CheckRecorded(c, s, v, net);
    VerifierAdvances(s, v, Verifying(s.verifiers[v].gen, s.verifiers[v].todo[1..]), t.cells, t.bmcs);
  }

  lemma EndAdvances(c: Machine, s: State, v: nat)
    requires Enabled(c, s, EndVerify(v))
    ensures Advances(s, Do(c, s, EndVerify(v)))
  {
    WeightRemove(s.verifiers, ChecksLeft, v);
  }

  lemma PruneAdvances(c: Machine, s: State, g: nat, net: Net)
    requires Enabled(c, s, RunPrune(g, net))
    ensures Advances(s, Do(c, s, RunPrune(g, net)))
  {
    SubscriberAdvances(s, g, Subscribing(Groups(c.site)), s.cells, Do(c, s, RunPrune(g, net)).bmcs);
  }

  /** Every step other than a new scan or a loss on a BMC takes work away, whatever fails. */
  lemma WorkAdvances(c: Machine, s: State, l: Label)
    requires CellsOk(c, s.cells) && Enabled(c, s, l) && Works(l)
    ensures Advances(s, Do(c, s, l))
  {
    match l
    case Visit(e) => VisitAdvances(c, s, e);
    case Send =>
    case ScanEnd =>
    case SpawnSubscriber => SpawnAdvances(c, s);
    case RunPrune(g, net) => PruneAdvances(c, s, g, net);
    case RunCheck(g, net) => CheckAdvances(c, s, g, net);
    case RunPost(g, net) => PostAdvances(c, s, g, net);
    case Finish(g) => FinishAdvances(c, s, g);
    case TakeVerify(v) => TakeAdvances(c, s, v);
    case StartVerify(v) => StartAdvances(c, s, v);
    case CheckGroup(v, net) => CheckGroupAdvances(c, s, v, net);
    case EndVerify(v) => EndAdvances(c, s, v);
  }

  predicate AllWork(ls: seq<Label>) {
    forall k | 0 <= k < |ls| :: Works(ls[k])
  }

  /** Every run between two scans is finite: it has at most `Measure` steps, whatever fails. */
  lemma {:induction false} WorkIsBounded(c: Machine, s: State, ls: seq<Label>)
    requires Inv(c, s) && Runs(c, s, ls) && AllWork(ls)
    ensures |ls| + Measure(After(c, s, ls)) <= Measure(s) && After(c, s, ls).scans == s.scans
    decreases |ls|
  {
    if ls == [] {
    } else {
      var last := |ls| - 1;
      WorkIsBounded(c, s, ls[..last]);
      InvHolds(c, s, ls[..last]);
      WorkAdvances(c, After(c, s, ls[..last]), ls[last]);
    }
  }

  // ------------------------------------------------ it stops only when all work is done

  /** The requests of a step, if any, succeed. */
  ghost predicate Smooth(l: Label) {
    (l.RunPrune? || l.RunCheck? || l.RunPost? || l.CheckGroup?) ==> Willing(l.net)
  }

  const WILLING := Net((r: Request) => false, 201, "", [])

  lemma SubscriberCanWork(c: Machine, s: State, g: nat) returns (l: Label)
    requires SubscribersOk(c, s.subscribers, |s.cells|) && g in s.subscribers
    ensures Enabled(c, s, l) && Works(l) && Smooth(l)
  {
    assert SubscriberOk(c, s.subscribers[g]);
    match s.subscribers[g]
    case Pruning => l := RunPrune(g, WILLING);
    case Subscribing(todo) => l := if todo == [] then Finish(g) else RunCheck(g, WILLING);
    case Posting(todo) => l := RunPost(g, WILLING);
  }

  lemma VerifierCanWork(c: Machine, s: State, v: nat) returns (l: Label)
    requires VerifiersOk(s.verifiers, |s.cells|) && v in s.verifiers
    ensures Enabled(c, s, l) && Works(l) && Smooth(l)
  {
    match s.verifiers[v]
    case Spawned(_) => l := StartVerify(v);
    case Verifying(_, todo) => l := if todo == [] then EndVerify(v) else CheckGroup(v, WILLING);
  }

  lemma ScanCanWork(c: Machine, s: State) returns (l: Label)
    requires CurrentOk(c, s.current, s.cells) && s.scanning && s.pending == [] && s.verify == []
    ensures Enabled(c, s, l) && Works(l) && Smooth(l)
  {
    if s.sending != Nothing {
      l := Send;
    } else if s.todo == {} {
      l := ScanEnd;
    } else {
      var e :| e in s.todo;
      l := Visit(e);
    }
  }

  /** Where work is left some step can do it, even with full channels. */
  lemma SomethingCanWork(c: Machine, s: State) returns (l: Label)
    requires Inv(c, s) && !Drained(s)
    ensures Enabled(c, s, l) && Works(l) && Smooth(l)
  {
    if s.subscribers.Keys != {} {
      var g :| g in s.subscribers.Keys;
      l := SubscriberCanWork(c, s, g);
    } else if s.verifiers.Keys != {} {
      var v :| v in s.verifiers.Keys;
      l := VerifierCanWork(c, s, v);
    } else if s.pending != [] {
      QueueHeadIsReady(c, s);
      l := SpawnSubscriber;
    } else if s.verify != [] {
      assert s.verify[0] in s.verify;
      l := TakeVerify(0);
    } else {
      l := ScanCanWork(c, s);
    }
  }

  /** Nothing but a new scan, or a loss on a BMC, can happen. */
  ghost predicate AtRest(c: Machine, s: State) {
    forall l | Works(l) :: !Enabled(c, s, l)
  }

  /** The machine is at rest if and only if all work is done: no deadlock between scan, channels and
      goroutines, and nothing left over. */
  lemma RestIffDrained(c: Machine, s: State)
    requires Inv(c, s)
    ensures AtRest(c, s) <==> Drained(s)
  {
    if !Drained(s) {
      var l := SomethingCanWork(c, s);
    }
  }

  /** Every run between two scans that goes as far as it can, whatever fails on the way, ends with all work done. */
  lemma MaximalRunsDrain(c: Machine, s: State, ls: seq<Label>)
    requires Inv(c, s) && Runs(c, s, ls) && AllWork(ls) && AtRest(c, After(c, s, ls))
    ensures Drained(After(c, s, ls)) && |ls| <= Measure(s) && After(c, s, ls).scans == s.scans
  {
    InvHolds(c, s, ls);
    WorkIsBounded(c, s, ls);
    RestIffDrained(c, After(c, s, ls));
  }

  ghost predicate AllSmooth(ls: seq<Label>) {
    forall k | 0 <= k < |ls| :: Smooth(ls[k])
  }

  /** And without any failure such a run exists from every state. */
  lemma AlwaysDrains(c: Machine, s: State) returns (ls: seq<Label>, t: State)
    requires Inv(c, s)
    ensures Leads(c, s, ls, t) && AllWork(ls) && AllSmooth(ls) && Inv(c, t) && Drained(t) && t.scans == s.scans
    decreases Measure(s)
  {
    if Drained(s) {
      ls, t := [], s;
    } else {
      var l := SomethingCanWork(c, s);
      var u := Do(c, s, l);
      WorkAdvances(c, s, l);
      InvPreserved(c, s, l);
      LeadsOne(c, s, l);
      var more;
      more, t := AlwaysDrains(c, u);
      LeadsConcat(c, s, [l], u, more, t);
      ls := [l] + more;
    }
  }

  lemma ReachableStatesDrain(c: Machine, s: State, ls: seq<Label>)
    requires Initial(s) && Runs(c, s, ls)
    ensures exists more :: Runs(c, After(c, s, ls), more) && AllWork(more) && AllSmooth(more) && Drained(After(c, After(c, s, ls), more))
  {
    InitialInv(c, s);
    InvHolds(c, s, ls);
    var more, t := AlwaysDrains(c, After(c, s, ls));
  }

  // ------------------------------------------------ repairs do happen

  lemma {:induction false} SmoothIsFavourable(c: Machine, s: State, ls: seq<Label>, id: string, gr: Group)
    requires Runs(c, s, ls) && AllWork(ls) && AllSmooth(ls)
    ensures Favourable(c, s, ls, id, gr)
    decreases |ls|
  {
    if ls == [] {
    } else {
      SmoothIsFavourable(c, s, ls[..|ls| - 1], id, gr);
    }
  }

  lemma {:induction false} FavourableConcat(c: Machine, s: State, a: seq<Label>, b: seq<Label>, id: string, gr: Group)
    requires Runs(c, s, a) && Favourable(c, s, a, id, gr)
    requires Runs(c, After(c, s, a), b) && Favourable(c, After(c, s, a), b, id, gr)
    ensures Runs(c, s, a + b) && Favourable(c, s, a + b, id, gr)
    decreases |b|
  {
    Concat(c, s, a, After(c, s, a), b);
    if b == [] {
      assert a + b == a;
    } else {
      var last := |b| - 1;
      FavourableConcat(c, s, a, b[..last], id, gr);
      Concat(c, s, a, After(c, s, a), b[..last]);
      assert (a + b)[..|a + b| - 1] == a + b[..last];
    }
  }

  ghost predicate Path(c: Machine, s: State, ls: seq<Label>, t: State, id: string, gr: Group) {
    Leads(c, s, ls, t) && Favourable(c, s, ls, id, gr)
  }

  lemma Chain(c: Machine, s: State, a: seq<Label>, t: State, b: seq<Label>, u: State, id: string, gr: Group)
    requires Path(c, s, a, t, id, gr) && Path(c, t, b, u, id, gr)
    ensures Path(c, s, a + b, u, id, gr)
  {
    FavourableConcat(c, s, a, b, id, gr);
    LeadsConcat(c, s, a, t, b, u);
  }

  /** One scan of the endpoint and all its work. */
  lemma ScanIsReached(c: Machine, s: State, id: string, gr: Group) returns (ls: seq<Label>, t: State)
    requires Inv(c, s) && Drained(s)
    ensures Path(c, s, ls, t, id, gr) && Inv(c, t) && Drained(t) && t.scans == s.scans + 1
  {
    var l := ScanStart({id});
    LeadsOne(c, s, l);
    InvPreserved(c, s, l);
    assert [l][..0] == [] && Favourable(c, s, [], id, gr);
    assert Path(c, s, [l], Do(c, s, l), id, gr);
    var more;
    more, t := AlwaysDrains(c, Do(c, s, l));
    SmoothIsFavourable(c, Do(c, s, l), more, id, gr);
    Chain(c, s, [l], Do(c, s, l), more, t, id, gr);
    ls := [l] + more;
  }

  lemma {:induction false} ScansAreReached(c: Machine, s: State, id: string, gr: Group, n: nat) returns (ls: seq<Label>, t: State)
    requires Inv(c, s) && Drained(s)
    ensures Path(c, s, ls, t, id, gr) && Inv(c, t) && Drained(t) && t.scans == s.scans + n
    decreases n
  {
    if n == 0 {
      ls, t := [], s;
    } else {
      var a, u := ScansAreReached(c, s, id, gr, n - 1);
      var b;
      b, t := ScanIsReached(c, u, id, gr);
      Chain(c, s, a, u, b, t, id, gr);
      ls := a + b;
    }
  }

  /** From every drained state with a recorded group, 21 favourable scans can be run and drained, and then
      the subscription is in place: the hypotheses of `SelfRepair` can always be met. */
  lemma RepairHappens(c: Machine, s: State, id: string, gr: Group)
    requires Inv(c, s) && Drained(s) && id in s.current && gr in s.cells[s.current[id]].prefixes
    ensures exists ls :: Runs(c, s, ls) && Favourable(c, s, ls, id, gr) && Drained(After(c, s, ls))
                         && After(c, s, ls).scans == s.scans + 21
                         && InPlace(c.site, id, gr, BmcOf(After(c, s, ls), id))
  {
    var ls, t := ScansAreReached(c, s, id, gr, CHECK_FREQ + 1);
    SelfRepair(c, s, ls, id, gr);
  }
}
