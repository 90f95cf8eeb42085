/**
 Exactly when the reconciler subscribes to a known endpoint again.  A pass ends by writing COMPLETE whatever
 happened to its groups, so only verify can bring the endpoint back, and verify looks at recorded
 groups only.
 */
module ReconcilerRetry {
  import opened Subscriptions
  import opened SubscriptionFacts
  import opened PrefixGroups
  import opened Reconciler
  import opened ReconcilerSafety
  import opened ReconcilerHistory
  import opened ReconcilerRepair
  import opened ReconcilerRuns

  /** The step belongs to a subscribe pass of the endpoint: prune, check or POST. */
  predicate Subscribes(c: Machine, s: State, l: Label, id: string)
    requires Enabled(c, s, l)
  {
    (l.RunPrune? || l.RunCheck? || l.RunPost?) && s.cells[l.gen].id == id
  }

  predicate SubscribesIn(c: Machine, s: State, ls: seq<Label>, id: string)
    requires Runs(c, s, ls)
    decreases |ls|
  {
    ls != [] &&
    var last := |ls| - 1;
    SubscribesIn(c, s, ls[..last], id) || Subscribes(c, After(c, s, ls[..last]), ls[last], id)
  }

  /** The scan queues the endpoint for a new pass. */
  predicate Retries(c: Machine, s: State, l: Label, id: string)
    requires Enabled(c, s, l)
  {
    l == Visit(id) && !c.skips(id) && Requeues(s, id)
  }

  predicate RetriesIn(c: Machine, s: State, ls: seq<Label>, id: string)
    requires Runs(c, s, ls)
    decreases |ls|
  {
    ls != [] &&
    var last := |ls| - 1;
    RetriesIn(c, s, ls[..last], id) || Retries(c, After(c, s, ls[..last]), ls[last], id)
  }

  /** A scan visits the endpoint after a check of a group recorded for generation `g` failed. */
  predicate FailsThenVisited(c: Machine, s: State, ls: seq<Label>, id: string, g: nat)
    requires Runs(c, s, ls)
    decreases |ls|
  {
    ls != [] &&
    var last := |ls| - 1;
    FailsThenVisited(c, s, ls[..last], id, g) || (ls[last] == Visit(id) && Blamed(c, s, ls[..last], g))
  }

  // ------------------------------------------------ between passes

  /** Generation `g` is current, its pass is over, and so is every pass of the endpoint. */
  ghost predicate Settled(s: State, id: string, g: nat) {
    && id in s.current && s.current[id] == g < |s.cells|
    && s.cells[g].status != PENDING
    && (forall h | 0 <= h < |s.cells| && s.cells[h].id == id :: !Owned(s, h))
  }

  lemma UnownedStep(c: Machine, s: State, l: Label, h: nat)
    requires Enabled(c, s, l) && h < |s.cells| && !Owned(s, h)
    ensures !Owned(Do(c, s, l), h)
  {
    match l
    case SpawnSubscriber => assert s.pending == [s.pending[0]] + s.pending[1..];
    case Visit(id) => assert !Owned(VisitEndpoint(c, s, id), h);
    case RunCheck(g, net) => assert !Owned(HandleCheck(c, s, g, net), h);
    case RunPost(g, net) => assert !Owned(HandlePost(c, s, g, net), h);
    case CheckGroup(v, net) => assert !Owned(CheckRecorded(c, s, v, net), h);
    case _ =>
  }

  /** Cells that appear in a step belong to an endpoint the scan queues. */
  lemma NewCellsAreRetries(c: Machine, s: State, l: Label, id: string)
    requires Enabled(c, s, l) && !Retries(c, s, l, id)
    ensures var s' := Do(c, s, l);
            && (forall h | |s.cells| <= h < |s'.cells| :: s'.cells[h].id != id)
            && (id in s.current ==> id in s'.current && s'.current[id] == s.current[id])
  {
    match l
    case Visit(e) => assert Do(c, s, l) == VisitEndpoint(c, s, e);
    case _ =>
  }

  /** A generation that no pass owns reads ERROR after a step if it did before or a check of it failed. */
  lemma StatusStep(c: Machine, s: State, l: Label, g: nat)
    requires ChecksRecorded(s) && Enabled(c, s, l) && g < |s.cells| && !Owned(s, g)
    ensures var s' := Do(c, s, l);
            && g < |s'.cells|
            && s'.cells[g].status == if FailedCheck(c, s, l, g) then ERROR else s.cells[g].status
  {
    CellsAreIsolated(c, s, l, g);
    if l.CheckGroup? && s.verifiers[l.v].gen == g {
      var gs := s.verifiers[l.v].todo;
      assert gs[0] in gs;
    }
  }

  lemma SettledStep(c: Machine, s: State, l: Label, id: string, g: nat)
    requires Inv(c, s) && ChecksRecorded(s) && Enabled(c, s, l) && Settled(s, id, g) && !Retries(c, s, l, id)
    ensures Settled(Do(c, s, l), id, g) && !Subscribes(c, s, l, id)
  {
    var s' := Do(c, s, l);
    NewCellsAreRetries(c, s, l, id);
    StatusStep(c, s, l, g);
    forall h | 0 <= h < |s'.cells| && s'.cells[h].id == id ensures !Owned(s', h) {
      assert h < |s.cells|;
      CellsAreIsolated(c, s, l, h);
      UnownedStep(c, s, l, h);
    }
  }

  /** As long as the scan does not queue the endpoint, it reads ERROR if and only if a check of a recorded
      group failed, and no subscribe pass touches it. */
  lemma {:induction false} SettledRun(c: Machine, s: State, ls: seq<Label>, id: string, g: nat)
    requires Inv(c, s) && ChecksRecorded(s) && Settled(s, id, g) && s.cells[g].status == COMPLETE
    requires Runs(c, s, ls) && !RetriesIn(c, s, ls, id)
    ensures var t := After(c, s, ls);
            && Inv(c, t) && ChecksRecorded(t) && Settled(t, id, g)
            && t.cells[g].status == if Blamed(c, s, ls, g) then ERROR else COMPLETE
    ensures !SubscribesIn(c, s, ls, id)
    decreases |ls|
  {
    if ls == [] {
    } else {
      var last := |ls| - 1;
      var t := After(c, s, ls[..last]);
      SettledRun(c, s, ls[..last], id, g);
      InvPreserved(c, t, ls[last]);
      ChecksStayRecorded(c, t, ls[last]);
      SettledStep(c, t, ls[last], id, g);
      StatusStep(c, t, ls[last], g);
    }
  }

  // ------------------------------------------------ the exact condition

  lemma DrainedIsSettled(c: Machine, s: State, id: string)
    requires Inv(c, s) && Drained(s) && id in s.current
    ensures Settled(s, id, s.current[id]) && ChecksRecorded(s)
  {
  }

  lemma {:induction false} RetryIffFrom(c: Machine, s: State, ls: seq<Label>, id: string, g: nat)
    requires Inv(c, s) && ChecksRecorded(s) && Settled(s, id, g) && s.cells[g].status == COMPLETE && Runs(c, s, ls)
    ensures RetriesIn(c, s, ls, id) <==> FailsThenVisited(c, s, ls, id, g)
    decreases |ls|
  {
    if ls == [] {
    } else {
      var last := |ls| - 1;
      RetryIffFrom(c, s, ls[..last], id, g);
      if !RetriesIn(c, s, ls[..last], id) {
        SettledRun(c, s, ls[..last], id, g);
      }
    }
  }

  /** From a drained state in which an endpoint reads COMPLETE, a run queues it for another pass if and only if
      a check of a group recorded for its current record fails and a later scan visits it. */
  lemma RetryIff(c: Machine, s: State, ls: seq<Label>, id: string)
    requires Inv(c, s) && Drained(s) && id in s.current && s.cells[s.current[id]].status == COMPLETE && Runs(c, s, ls)
    ensures RetriesIn(c, s, ls, id) <==> FailsThenVisited(c, s, ls, id, s.current[id])
  {
    DrainedIsSettled(c, s, id);
    RetryIffFrom(c, s, ls, id, s.current[id]);
  }

  /** What is not retried stays missing.  Without a failed check of a recorded group no continuation runs a
      prune, a check or a POST for the endpoint, it keeps reading COMPLETE, and no group gains a subscription,
      whether it is recorded or not. */
  lemma MissingStaysMissing(c: Machine, s: State, ls: seq<Label>, id: string, gr: Group)
    requires Inv(c, s) && Drained(s) && id in s.current && s.cells[s.current[id]].status == COMPLETE && Runs(c, s, ls)
    requires !Blamed(c, s, ls, s.current[id]) && gr in Groups(c.site)
    ensures !SubscribesIn(c, s, ls, id)
    ensures var t := After(c, s, ls);
            && id in t.current && t.current[id] == s.current[id] < |t.cells| && t.cells[t.current[id]].status == COMPLETE
            && Count(c.site, id, gr, BmcOf(t, id)) <= Count(c.site, id, gr, BmcOf(s, id))
  {
    DrainedIsSettled(c, s, id);
    NoRetryUnblamed(c, s, ls, id, s.current[id]);
    SettledRun(c, s, ls, id, s.current[id]);
    NothingGained(c, s, ls, id, gr);
  }

  lemma {:induction false} NoRetryUnblamed(c: Machine, s: State, ls: seq<Label>, id: string, g: nat)
    requires Inv(c, s) && ChecksRecorded(s) && Settled(s, id, g) && s.cells[g].status == COMPLETE && Runs(c, s, ls)
    requires !Blamed(c, s, ls, g)
    ensures !RetriesIn(c, s, ls, id)
    decreases |ls|
  {
    if ls == [] {
    } else {
      var last := |ls| - 1;
      NoRetryUnblamed(c, s, ls[..last], id, g);
      SettledRun(c, s, ls[..last], id, g);
    }
  }

  lemma {:induction false} NothingGained(c: Machine, s: State, ls: seq<Label>, id: string, gr: Group)
    requires Inv(c, s) && Runs(c, s, ls) && !SubscribesIn(c, s, ls, id) && gr in Groups(c.site)
    ensures Count(c.site, id, gr, BmcOf(After(c, s, ls), id)) <= Count(c.site, id, gr, BmcOf(s, id))
    decreases |ls|
  {
    if ls == [] {
    } else {
      var last := |ls| - 1;
      NothingGained(c, s, ls[..last], id, gr);
      InvHolds(c, s, ls[..last]);
      NothingGainedStep(c, After(c, s, ls[..last]), ls[last], id, gr);
    }
  }

  lemma NothingGainedStep(c: Machine, s: State, l: Label, id: string, gr: Group)
    requires BmcsOk(s.bmcs) && Enabled(c, s, l) && !Subscribes(c, s, l, id) && gr in Groups(c.site)
    ensures Count(c.site, id, gr, BmcOf(Do(c, s, l), id)) <= Count(c.site, id, gr, BmcOf(s, id))
  {
    StepOnBmc(c, s, l, id);
    var op := OpOn(c, s, l, id);
    if op.Some? {
      OpCount(c.site, id, gr, op.value, BmcOf(s, id));
    }
  }

  // ------------------------------------------------ a pass that fails by half

  lemma GoodEndLeads(c: Machine, t: State, id: string, willing: Net)
    returns (u: State)
    requires Stage(t, id, map[id := 0], [Cells(id, ERROR, [])], map[0 := Subscribing([TELEMETRY])], []) && Willing(willing)
    ensures Leads(c, t, [RunCheck(0, willing)] + [RunPost(0, willing)] + [Finish(0)], u)
    ensures Stage(u, id, map[id := 0], [Cells(id, COMPLETE, [TELEMETRY])], map[], Post(c.site, id, TELEMETRY, willing, []))
  {
    var current, failed := map[id := 0], [Cells(id, ERROR, [])];
    var t1 := CheckedEmpty(c, t, id, 0, willing, current, failed, map[0 := Subscribing([TELEMETRY])]);
    var t2 := PostedWilling(c, t1, id, 0, willing, current, failed, map[0 := Posting([TELEMETRY])], []);
    assert AppendUnique(TELEMETRY, []) == [TELEMETRY] && [TELEMETRY][1..] == [];
    u := Finished(c, t2, id, 0, current, [Cells(id, ERROR, [TELEMETRY])], map[0 := Subscribing([])], Post(c.site, id, TELEMETRY, willing, []));
    LeadsConcat(c, t, [RunCheck(0, willing)], t1, [RunPost(0, willing)], t2);
    LeadsConcat(c, t, [RunCheck(0, willing)] + [RunPost(0, willing)], t2, [Finish(0)], u);
  }

  /** The check of the nil group fails, the telemetry group is subscribed. */
  function HalfPass(id: string, dead: Net, willing: Net): seq<Label> {
    BadStart(id, 0, dead) + ([RunCheck(0, willing)] + [RunPost(0, willing)] + [Finish(0)])
  }

  /** From the start: one failed check in an otherwise good pass leaves an endpoint that reads COMPLETE, holds
      no subscription for standard events, and has the telemetry group recorded, so that `RetryReach` still
      counts it as reachable while `MissingStaysMissing` denies it the missing group. */
  lemma HalfFailedPass(c: Machine, s: State, id: string, dead: Net, willing: Net)
    requires Initial(s) && !c.skips(id) && c.site.streaming && BmcOf(s, id) == [] && Dead(dead) && Willing(willing)
    ensures var ls := HalfPass(id, dead, willing);
            && Runs(c, s, ls)
            && var t := After(c, s, ls);
               && Inv(c, t) && Drained(t) && t.current == map[id := 0] && t.cells == [Cells(id, COMPLETE, [TELEMETRY])]
               && Count(c.site, id, NilGroup, BmcOf(t, id)) == 0 && Count(c.site, id, TELEMETRY, BmcOf(t, id)) == 1
  {
    assert Groups(c.site)[1..] == [TELEMETRY];
    var t1 := BadStartLeads(c, s, id, dead, map[], [], map[], []);
    assert [] + [Cells(id, ERROR, [])] == [Cells(id, ERROR, [])];
    var t2 := GoodEndLeads(c, t1, id, willing);
    LeadsConcat(c, s, BadStart(id, 0, dead), t1, [RunCheck(0, willing)] + [RunPost(0, willing)] + [Finish(0)], t2);
    PostCount(c.site, id, TELEMETRY, NilGroup, willing, []);
    PostCount(c.site, id, TELEMETRY, TELEMETRY, willing, []);
    InitialInv(c, s);
    InvHolds(c, s, HalfPass(id, dead, willing));
  }
}
