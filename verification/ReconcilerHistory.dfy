/** Properties of whole runs of the reconciler, in every interleaving: ownership of pending
    endpoints, isolation of generations, causes of re-queueing, and bounded duplicates. */
module ReconcilerHistory {
  import opened Basics
  import opened Subscriptions
  import opened SubscriptionFacts
  import opened PrefixGroups
  import opened Reconciler
  import opened ReconcilerSafety

  // ------------------------------------------------ nobody is stuck PENDING

  lemma InitialInv(c: Machine, s: State)
    requires Initial(s)
    ensures Inv(c, s)
  {
  }

  /** In every reachable state an endpoint whose status reads PENDING is being sent, queued, or
      held by a subscribe goroutine that has not reached its final write. */
  lemma PendingIsOwned(c: Machine, s: State, ls: seq<Label>, id: string)
    requires Initial(s) && Runs(c, s, ls) && id in After(c, s, ls).current
    ensures var t := After(c, s, ls);
            t.current[id] < |t.cells| && (t.cells[t.current[id]].status == PENDING ==> Owned(t, t.current[id]))
  {
    InitialInv(c, s);
    InvHolds(c, s, ls);
  }

  /** A goroutine or a queue entry can always take its next step. */
  predicate CanAdvance(c: Machine, s: State, g: nat, net: Net) {
    || (s.sending == ToPending(g) && (Enabled(c, s, Send) || (|s.pending| >= CHANNEL_SIZE && Enabled(c, s, SpawnSubscriber))))
    || (g in s.pending && Enabled(c, s, SpawnSubscriber))
    || Enabled(c, s, RunPrune(g, net))
    || Enabled(c, s, RunCheck(g, net))
    || Enabled(c, s, RunPost(g, net))
    || Enabled(c, s, Finish(g))
  }

  lemma QueueHeadIsReady(c: Machine, s: State)
    requires Exclusive(s) && s.pending != []
    ensures Enabled(c, s, SpawnSubscriber)
  {
    assert s.pending[0] in s.pending;
  }

  lemma SubscriberIsReady(c: Machine, s: State, g: nat, net: Net)
    requires SubscribersOk(c, s.subscribers, |s.cells|) && g in s.subscribers
    ensures || Enabled(c, s, RunPrune(g, net)) || Enabled(c, s, RunCheck(g, net)) || Enabled(c, s, RunPost(g, net))
            || Enabled(c, s, Finish(g))
  {
    assert SubscriberOk(c, s.subscribers[g]);
    match s.subscribers[g]
    case Pruning => assert Enabled(c, s, RunPrune(g, net));
    case Subscribing(todo) => assert if todo == [] then Enabled(c, s, Finish(g)) else Enabled(c, s, RunCheck(g, net));
    case Posting(todo) => assert Enabled(c, s, RunPost(g, net));
  }

  /** An owner is never blocked for good: some step towards the final write is enabled. */
  lemma OwnersAdvance(c: Machine, s: State, g: nat, net: Net)
    requires Inv(c, s) && Owned(s, g)
    ensures CanAdvance(c, s, g, net)
  {
    if s.pending != [] {
      QueueHeadIsReady(c, s);
    }
    if g in s.subscribers {
      SubscriberIsReady(c, s, g, net);
    }
  }

  predicate ChannelsFit(s: State) {
    |s.pending| <= 1000 && |s.verify| <= 1000
  }

  lemma ChannelsFitStep(c: Machine, s: State, l: Label)
    requires ChannelsFit(s) && Enabled(c, s, l)
    ensures ChannelsFit(Do(c, s, l))
  {
    match l
    case Visit(e) => assert VisitEndpoint(c, s, e).pending == s.pending && VisitEndpoint(c, s, e).verify == s.verify;
    case RunCheck(g, net) => assert HandleCheck(c, s, g, net).pending == s.pending && HandleCheck(c, s, g, net).verify == s.verify;
    case RunPost(g, net) => assert HandlePost(c, s, g, net).pending == s.pending && HandlePost(c, s, g, net).verify == s.verify;
    case CheckGroup(v, net) => assert CheckRecorded(c, s, v, net).pending == s.pending && CheckRecorded(c, s, v, net).verify == s.verify;
    case _ =>
  }

  /** The channels hold at most 1000 entries, and the scan waits to send if and only if its channel holds as many. */
  lemma {:induction false} ChannelsNeverOverflow(c: Machine, s: State, ls: seq<Label>)
    requires Initial(s) && Runs(c, s, ls)
    ensures var t := After(c, s, ls);
            ChannelsFit(t) && (t.sending != Nothing ==>
              (!Enabled(c, t, Send) <==> if t.sending.ToPending? then |t.pending| == 1000 else |t.verify| == 1000))
    decreases |ls|
  {
    if ls == [] {
    } else {
      ChannelsNeverOverflow(c, s, ls[..|ls| - 1]);
      ChannelsFitStep(c, After(c, s, ls[..|ls| - 1]), ls[|ls| - 1]);
    }
  }

  // ------------------------------------------------ generations are isolated

  /** The generation whose cells a step may write. */
  predicate Writes(s: State, l: Label, g: nat) {
    || ((l.RunCheck? || l.RunPost?) && l.gen == g)
    || (l.Finish? && l.gen == g)
    || (l.CheckGroup? && l.v in s.verifiers && s.verifiers[l.v].gen == g)
  }

  /** What a step may do to the cells of generation `g`. */
  predicate CellStep(s: State, l: Label, g: nat, s': State)
    requires g < |s.cells|
  {
    && |s.cells| <= |s'.cells|
    && s'.cells[g].id == s.cells[g].id
    && s.cells[g].prefixes <= s'.cells[g].prefixes
    && (!Writes(s, l, g) ==> s'.cells[g] == s.cells[g])
    && (s'.cells[g].prefixes != s.cells[g].prefixes ==> (l.RunCheck? || l.RunPost?) && l.gen == g)
  }

  lemma CellsInHalf(s: State, k: nat, next: Subscriber, gr: Group, out: Written, l: Label, g: nat)
    requires k < |s.cells| && g < |s.cells| && (l.RunCheck? || l.RunPost?) && l.gen == k
    ensures CellStep(s, l, g, WriteHalf(s, k, next, Wrote(s.cells[k], gr, out), out.members))
  {
  }

  lemma CellsInCheck(c: Machine, s: State, v: nat, net: Net, g: nat)
    requires Enabled(c, s, CheckGroup(v, net)) && g < |s.cells|
    ensures CellStep(s, CheckGroup(v, net), g, CheckRecorded(c, s, v, net))
  {
  }

  lemma CellsInVisit(c: Machine, s: State, id: string, g: nat)
    requires Enabled(c, s, Visit(id)) && g < |s.cells|
    ensures CellStep(s, Visit(id), g, VisitEndpoint(c, s, id))
  {
  }

  /** Cells change only through a goroutine holding their generation; prefix lists only through
      its one subscribe goroutine, and then they only grow. */
  lemma CellsAreIsolated(c: Machine, s: State, l: Label, g: nat)
    requires Enabled(c, s, l) && g < |s.cells|
    ensures CellStep(s, l, g, Do(c, s, l))
  {
    match l
    case RunCheck(k, net) =>
      var gs, out := s.subscribers[k].todo, Checked(c, s, k, net);
      CellsInHalf(s, k, if out.status.Some? then Subscribing(gs[1..]) else Posting(gs), gs[0], out, l, g);
    case RunPost(k, net) =>
      var gs, out := s.subscribers[k].todo, Posted(c, s, k, net);
      CellsInHalf(s, k, Subscribing(gs[1..]), gs[0], out, l, g);
    case CheckGroup(v, net) => CellsInCheck(c, s, v, net, g);
    case Visit(id) => CellsInVisit(c, s, id, g);
    case _ =>
  }

  lemma CurrentAdvances(c: Machine, s: State, l: Label, id: string)
    requires CurrentOk(c, s.current, s.cells) && Enabled(c, s, l) && id in s.current
    ensures var s' := Do(c, s, l); id in s'.current && s.current[id] <= s'.current[id]
  {
    match l
    case Visit(e) => VisitAdvances(c, s, e, id);
    case _ =>
  }

  lemma VisitAdvances(c: Machine, s: State, e: string, id: string)
    requires CurrentOk(c, s.current, s.cells) && Enabled(c, s, Visit(e)) && id in s.current
    ensures var s' := VisitEndpoint(c, s, e); id in s'.current && s.current[id] <= s'.current[id]
  {
  }

  lemma {:induction false} CurrentOnlyGrows(c: Machine, s: State, ls: seq<Label>, id: string)
    requires Inv(c, s) && Runs(c, s, ls) && id in s.current
    ensures id in After(c, s, ls).current && s.current[id] <= After(c, s, ls).current[id]
    decreases |ls|
  {
    if ls == [] {
    } else {
      var last := |ls| - 1;
      CurrentOnlyGrows(c, s, ls[..last], id);
      InvHolds(c, s, ls[..last]);
      CurrentAdvances(c, After(c, s, ls[..last]), ls[last], id);
    }
  }

  /** A replaced generation never becomes current again: `s` reads one generation, a run leads to a
      state that reads another, and no further run brings the first one back. */
  lemma ReplacedForGood(c: Machine, s: State, ls: seq<Label>, more: seq<Label>, id: string)
    requires Inv(c, s) && Runs(c, s, ls) && Runs(c, After(c, s, ls), more) && id in s.current
    requires id in After(c, s, ls).current ==> After(c, s, ls).current[id] != s.current[id]
    ensures var u := After(c, After(c, s, ls), more); id in u.current && u.current[id] > s.current[id]
  {
    CurrentOnlyGrows(c, s, ls, id);
    InvHolds(c, s, ls);
    CurrentOnlyGrows(c, After(c, s, ls), more, id);
  }

  predicate SendsGeneration(s: State, l: Label, g: nat) {
    l == Send && s.sending == ToPending(g)
  }

  predicate SpawnsGeneration(s: State, l: Label, g: nat) {
    l == SpawnSubscriber && s.pending != [] && s.pending[0] == g
  }

  function SendCount(c: Machine, s: State, ls: seq<Label>, g: nat): nat
    requires Runs(c, s, ls)
    decreases |ls|
  {
    if ls == [] then 0
    else
      var last := |ls| - 1;
      SendCount(c, s, ls[..last], g) + (if SendsGeneration(After(c, s, ls[..last]), ls[last], g) then 1 else 0)
  }

  function SpawnCount(c: Machine, s: State, ls: seq<Label>, g: nat): nat
    requires Runs(c, s, ls)
    decreases |ls|
  {
    if ls == [] then 0
    else
      var last := |ls| - 1;
      SpawnCount(c, s, ls[..last], g) + (if SpawnsGeneration(After(c, s, ls[..last]), ls[last], g) then 1 else 0)
  }

  function Sent(s: State, g: nat): nat {
    if g < |s.cells| && s.sending != ToPending(g) then 1 else 0
  }

  function Started(s: State, g: nat): nat {
    if g < |s.cells| && s.sending != ToPending(g) && g !in s.pending then 1 else 0
  }

  predicate Counted(s: State, l: Label, g: nat, s': State) {
    && Sent(s', g) == Sent(s, g) + (if SendsGeneration(s, l, g) then 1 else 0)
    && Started(s', g) == Started(s, g) + (if SpawnsGeneration(s, l, g) then 1 else 0)
  }

  lemma SpawnCounts(c: Machine, s: State, g: nat)
    requires Exclusive(s) && Below(s.pending, |s.cells|) && Enabled(c, s, SpawnSubscriber)
    ensures Counted(s, SpawnSubscriber, g, Do(c, s, SpawnSubscriber))
  {
    var h, rest := s.pending[0], s.pending[1..];
    assert s.pending == [h] + rest;
    assert h in s.pending && h !in rest;
  }

  lemma VisitCounts(c: Machine, s: State, id: string, g: nat)
    requires Below(s.pending, |s.cells|) && Enabled(c, s, Visit(id))
    ensures Counted(s, Visit(id), g, VisitEndpoint(c, s, id))
  {
  }

  /** Steps that neither send nor spawn leave queue positions alone. */
  lemma QueuesStay(c: Machine, s: State, l: Label)
    requires Enabled(c, s, l) && !l.SpawnSubscriber? && !l.Send? && !l.Visit?
    ensures var s' := Do(c, s, l); |s'.cells| == |s.cells| && s'.sending == s.sending && s'.pending == s.pending
  {
  }

  lemma StepCounts(c: Machine, s: State, l: Label, g: nat)
    requires Inv(c, s) && Enabled(c, s, l)
    ensures Counted(s, l, g, Do(c, s, l))
  {
    match l
    case SpawnSubscriber => SpawnCounts(c, s, g);
    case Visit(id) => VisitCounts(c, s, id, g);
    case Send =>
    case _ => QueuesStay(c, s, l);
  }

  /** Each generation goes through the pending channel exactly once and gets exactly one
      subscribe goroutine. */
  lemma {:induction false} SentExactlyOnce(c: Machine, s: State, ls: seq<Label>, g: nat)
    requires Initial(s) && Runs(c, s, ls)
    ensures SendCount(c, s, ls, g) == Sent(After(c, s, ls), g)
    ensures SpawnCount(c, s, ls, g) == Started(After(c, s, ls), g)
    decreases |ls|
  {
    if ls == [] {
    } else {
      var last := |ls| - 1;
      SentExactlyOnce(c, s, ls[..last], g);
      InitialInv(c, s);
      InvHolds(c, s, ls[..last]);
      StepCounts(c, After(c, s, ls[..last]), ls[last], g);
    }
  }

  /** Over any run the prefix list of a generation is pairwise different as sets and holds at most two groups. */
  lemma PrefixListsStaySmall(c: Machine, s: State, ls: seq<Label>, g: nat)
    requires Initial(s) && Runs(c, s, ls) && g < |After(c, s, ls).cells|
    ensures var pg := After(c, s, ls).cells[g].prefixes; |pg| <= 2 && GoodList(Groups(c.site), pg)
  {
    InitialInv(c, s);
    InvHolds(c, s, ls);
    AtMostTwoGroups(c.site, After(c, s, ls).cells[g].prefixes);
  }

  // ------------------------------------------------ why an endpoint is re-queued

  /** Groups still to be checked are recorded groups. */
  ghost predicate ChecksRecorded(s: State) {
    forall v | v in s.verifiers && s.verifiers[v].Verifying? ::
      s.verifiers[v].gen < |s.cells| && forall h | h in s.verifiers[v].todo :: h in s.cells[s.verifiers[v].gen].prefixes
  }

  /** Only verify steps touch the verify goroutines. */
  lemma VerifiersStay(c: Machine, s: State, l: Label)
    requires Enabled(c, s, l) && !(l.TakeVerify? || l.StartVerify? || l.CheckGroup? || l.EndVerify?)
    ensures Do(c, s, l).verifiers == s.verifiers
  {
    match l
    case Visit(id) => assert VisitEndpoint(c, s, id).verifiers == s.verifiers;
    case RunCheck(g, net) => assert HandleCheck(c, s, g, net).verifiers == s.verifiers;
    case RunPost(g, net) => assert HandlePost(c, s, g, net).verifiers == s.verifiers;
    case _ =>
  }

  /** The groups a verify goroutine still has to check were its own before the step, or are just read
      from the prefix cell. */
  ghost predicate ComeFrom(s: State, v: nat, w: Verifier) {
    w.Verifying? ==>
      && v in s.verifiers && s.verifiers[v].gen == w.gen
      && if s.verifiers[v].Verifying? then forall h | h in w.todo :: h in s.verifiers[v].todo
         else w.gen < |s.cells| && w.todo == s.cells[w.gen].prefixes
  }

  lemma ChecksComeFromCheck(c: Machine, s: State, k: nat, net: Net, v: nat)
    requires Enabled(c, s, CheckGroup(k, net)) && v in CheckRecorded(c, s, k, net).verifiers
    ensures ComeFrom(s, v, CheckRecorded(c, s, k, net).verifiers[v])
  {
  }

  lemma ChecksComeFromTake(s: State, k: nat, v: nat)
    requires s.verify != [] && s.verify[0] < |s.cells| && k !in s.verifiers && v in TakeFromVerify(s, k).verifiers
    ensures ComeFrom(s, v, TakeFromVerify(s, k).verifiers[v])
  {
  }

  lemma ChecksComeFromStart(s: State, k: nat, v: nat)
    requires k in s.verifiers && s.verifiers[k].Spawned? && s.verifiers[k].gen < |s.cells| && v in s.verifiers
    ensures ComeFrom(s, v, StartChecks(s, k).verifiers[v])
  {
  }

  lemma ChecksComeFrom(c: Machine, s: State, l: Label, v: nat)
    requires Enabled(c, s, l) && v in Do(c, s, l).verifiers
    ensures ComeFrom(s, v, Do(c, s, l).verifiers[v])
  {
    match l
    case CheckGroup(k, net) => ChecksComeFromCheck(c, s, k, net, v);
    case TakeVerify(k) => ChecksComeFromTake(s, k, v);
    case StartVerify(k) => ChecksComeFromStart(s, k, v);
    case EndVerify(k) =>
    case _ => VerifiersStay(c, s, l);
  }

  lemma ChecksStayRecorded(c: Machine, s: State, l: Label)
    requires ChecksRecorded(s) && Enabled(c, s, l)
    ensures ChecksRecorded(Do(c, s, l))
  {
    var s' := Do(c, s, l);
    forall v | v in s'.verifiers && s'.verifiers[v].Verifying?
      ensures s'.verifiers[v].gen < |s'.cells|
      ensures forall h | h in s'.verifiers[v].todo :: h in s'.cells[s'.verifiers[v].gen].prefixes
    {
      ChecksComeFrom(c, s, l, v);
      CellsAreIsolated(c, s, l, s'.verifiers[v].gen);
    }
  }

  /** A verify goroutine of generation `g` fails to find a group recorded for `g`. */
  predicate FailedCheck(c: Machine, s: State, l: Label, g: nat) {
    && l.CheckGroup?
    && Enabled(c, s, l)
    && s.verifiers[l.v].gen == g
    && s.verifiers[l.v].todo[0] in s.cells[g].prefixes
    && VerifyFails(c.site, s.cells[g].id, s.verifiers[l.v].todo[0], l.net, BmcOf(s, s.cells[g].id))
  }

  /** Some step of the run was a failed check. */
  predicate Blamed(c: Machine, s: State, ls: seq<Label>, g: nat)
    requires Runs(c, s, ls)
    decreases |ls|
  {
    ls != [] &&
    var last := |ls| - 1;
    Blamed(c, s, ls[..last], g) || FailedCheck(c, After(c, s, ls[..last]), ls[last], g)
  }

  /** `g` reads ERROR although no pass owns it. */
  predicate Errored(s: State, g: nat) {
    g < |s.cells| && !Owned(s, g) && s.cells[g].status == ERROR
  }

  lemma ErrorInHalf(s: State, k: nat, next: Subscriber, cell: Cells, m: seq<Member>, g: nat)
    requires k in s.subscribers && k < |s.cells| && Errored(WriteHalf(s, k, next, cell, m), g)
    ensures Errored(s, g)
  {
  }

  lemma ErrorInCheck(c: Machine, s: State, v: nat, net: Net, g: nat)
    requires ChecksRecorded(s) && Enabled(c, s, CheckGroup(v, net)) && Errored(CheckRecorded(c, s, v, net), g)
    ensures FailedCheck(c, s, CheckGroup(v, net), g) || Errored(s, g)
  {
  }

  lemma ErrorInVisit(c: Machine, s: State, id: string, g: nat)
    requires Enabled(c, s, Visit(id)) && Errored(VisitEndpoint(c, s, id), g)
    ensures Errored(s, g)
  {
  }

  lemma ErrorStep(c: Machine, s: State, l: Label, g: nat)
    requires ChecksRecorded(s) && Enabled(c, s, l) && Errored(Do(c, s, l), g)
    ensures FailedCheck(c, s, l, g) || Errored(s, g)
  {
    match l
    case RunCheck(k, net) =>
      var gs, out := s.subscribers[k].todo, Checked(c, s, k, net);
      ErrorInHalf(s, k, if out.status.Some? then Subscribing(gs[1..]) else Posting(gs), Wrote(s.cells[k], gs[0], out), out.members, g);
    case RunPost(k, net) =>
      var gs, out := s.subscribers[k].todo, Posted(c, s, k, net);
      ErrorInHalf(s, k, Subscribing(gs[1..]), Wrote(s.cells[k], gs[0], out), out.members, g);
    case CheckGroup(v, net) => ErrorInCheck(c, s, v, net, g);
    case Visit(id) => ErrorInVisit(c, s, id, g);
    case SpawnSubscriber => assert s.pending == [s.pending[0]] + s.pending[1..];
    case _ =>
  }

  /** An ERROR that survives the end of its pass was written by verify, for a recorded group. */
  lemma {:induction false} ErrorsComeFromVerify(c: Machine, s: State, ls: seq<Label>, g: nat)
    requires Initial(s) && Runs(c, s, ls)
    ensures ChecksRecorded(After(c, s, ls))
    ensures Errored(After(c, s, ls), g) ==> Blamed(c, s, ls, g)
    decreases |ls|
  {
    if ls == [] {
    } else {
      var last := |ls| - 1;
      var init := ls[..last];
      ErrorsComeFromVerify(c, s, init, g);
      InitialInv(c, s);
      InvHolds(c, s, init);
      var s1 := After(c, s, init);
      ChecksStayRecorded(c, s1, ls[last]);
      if Errored(After(c, s, ls), g) {
        ErrorStep(c, s1, ls[last], g);
      }
    }
  }

  /** A scan that finds no pass under way re-queues a known endpoint only because an earlier verify
      step failed a group recorded for the current generation. */
  lemma RequeueNeedsFailedCheck(c: Machine, s: State, ls: seq<Label>, id: string)
    requires Initial(s) && Runs(c, s, ls)
    requires var t := After(c, s, ls); Enabled(c, t, Visit(id)) && id in t.current && Requeues(t, id) && !Owned(t, t.current[id])
    ensures Blamed(c, s, ls, After(c, s, ls).current[id])
  {
    ErrorsComeFromVerify(c, s, ls, After(c, s, ls).current[id]);
  }

  // ------------------------------------------------ every BMC sees a run of operations

  /** The operation a step performs on the BMC of `id`. */
  function OpOn(c: Machine, s: State, l: Label, id: string): Option<Op>
    requires Enabled(c, s, l)
  {
    match l
    case RunPrune(g, net) => if s.cells[g].id == id then Some(PruneOp(net)) else None
    case RunCheck(g, net) => if s.cells[g].id == id then Some(CheckOp(g, s.subscribers[g].todo[0], net)) else None
    case RunPost(g, net) => if s.cells[g].id == id then Some(PostOp(g, s.subscribers[g].todo[0], net)) else None
    case CheckGroup(v, net) =>
      if s.cells[s.verifiers[v].gen].id == id then Some(VerifyOp(s.verifiers[v].todo[0], net)) else None
    case Forget(i, oids) => if i == id then Some(LoseOp(oids)) else None
    case _ => None
  }

  function OpsOn(c: Machine, s: State, ls: seq<Label>, id: string): seq<Op>
    requires Runs(c, s, ls)
    decreases |ls|
  {
    if ls == [] then []
    else
      var last := |ls| - 1;
      var op := OpOn(c, After(c, s, ls[..last]), ls[last], id);
      OpsOn(c, s, ls[..last], id) + (if op.Some? then [op.value] else [])
  }

  /** A BMC undergoes at most one operation. */
  predicate Undergoes(c: Machine, id: string, op: Option<Op>, before: seq<Member>, after: seq<Member>) {
    after == if op.Some? then Apply(c.site, id, op.value, before) else before
  }

  lemma RunCheckOnBmc(c: Machine, s: State, g: nat, net: Net, id: string)
    requires Enabled(c, s, RunCheck(g, net))
    ensures Undergoes(c, id, OpOn(c, s, RunCheck(g, net), id), BmcOf(s, id), BmcOf(HandleCheck(c, s, g, net), id))
  {
  }

  lemma RunPostOnBmc(c: Machine, s: State, g: nat, net: Net, id: string)
    requires Enabled(c, s, RunPost(g, net))
    ensures Undergoes(c, id, OpOn(c, s, RunPost(g, net), id), BmcOf(s, id), BmcOf(HandlePost(c, s, g, net), id))
  {
  }

  lemma CheckGroupOnBmc(c: Machine, s: State, v: nat, net: Net, id: string)
    requires Enabled(c, s, CheckGroup(v, net))
    ensures Undergoes(c, id, OpOn(c, s, CheckGroup(v, net), id), BmcOf(s, id), BmcOf(CheckRecorded(c, s, v, net), id))
  {
  }

  lemma VisitLeavesBmcs(c: Machine, s: State, e: string)
    requires Enabled(c, s, Visit(e))
    ensures VisitEndpoint(c, s, e).bmcs == s.bmcs
  {
  }

  lemma StepOnBmc(c: Machine, s: State, l: Label, id: string)
    requires Enabled(c, s, l)
    ensures Undergoes(c, id, OpOn(c, s, l, id), BmcOf(s, id), BmcOf(Do(c, s, l), id))
  {
    match l
    case RunCheck(g, net) => RunCheckOnBmc(c, s, g, net, id);
    case RunPost(g, net) => RunPostOnBmc(c, s, g, net, id);
    case CheckGroup(v, net) => CheckGroupOnBmc(c, s, v, net, id);
    case Visit(e) => VisitLeavesBmcs(c, s, e);
    case _ =>
  }

  lemma PostsAreForSiteGroups(c: Machine, s: State, l: Label, id: string)
    requires SubscribersOk(c, s.subscribers, |s.cells|) && Enabled(c, s, l)
    ensures var op := OpOn(c, s, l, id); op.Some? && op.value.PostOp? ==> op.value.group in Groups(c.site)
  {
    if l.RunPost? {
      HeadOfSuffix(s.subscribers[l.gen].todo, Groups(c.site));
    }
  }

  lemma {:induction false} BmcSeesOps(c: Machine, s: State, ls: seq<Label>, id: string)
    requires Initial(s) && Runs(c, s, ls)
    ensures BmcOf(After(c, s, ls), id) == ApplyAll(c.site, id, OpsOn(c, s, ls, id), BmcOf(s, id))
    ensures SiteOps(c.site, OpsOn(c, s, ls, id))
    decreases |ls|
  {
    if ls == [] {
    } else {
      var last := |ls| - 1;
      BmcSeesOps(c, s, ls[..last], id);
      InitialInv(c, s);
      InvHolds(c, s, ls[..last]);
      StepOnBmc(c, After(c, s, ls[..last]), ls[last], id);
      PostsAreForSiteGroups(c, After(c, s, ls[..last]), ls[last], id);
      var ops, op := OpsOn(c, s, ls[..last], id), OpOn(c, After(c, s, ls[..last]), ls[last], id);
      if op.Some? {
        assert (ops + [op.value])[..|ops|] == ops;
      } else {
        assert ops + [] == ops;
      }
    }
  }

  /** In every reachable state, however scans, passes and checks interleave, a BMC holds at most max(1, initial)
      of our subscriptions for a group, plus one per DELETE that failed straight after a failed PATCH and
      one per POST whose check was overtaken by another POST for the group. */
  lemma ReachableDuplicatesAreBounded(c: Machine, s: State, ls: seq<Label>, id: string, g: Group)
    requires Initial(s) && Runs(c, s, ls) && g in Groups(c.site)
    ensures var m := BmcOf(s, id);
            Count(c.site, id, g, BmcOf(After(c, s, ls), id)) <= Bound(c.site, id, g, OpsOn(c, s, ls, id), m)
  {
    BmcSeesOps(c, s, ls, id);
    DuplicatesAreBounded(c.site, id, g, OpsOn(c, s, ls, id), BmcOf(s, id));
  }
}
