/** The repair delay of `ReconcilerRepair` is forced by the check frequency. */
module ReconcilerBounds {
  import opened Subscriptions
  import opened Reconciler
  import opened ReconcilerSafety
  import opened ReconcilerHistory
  import opened ReconcilerRepair
  import opened ReconcilerAbandon

  // ------------------------------------------------ nothing happens before the next check

  /** No goroutine or queue entry exists for generation `h`. */
  ghost predicate Idling(s: State, h: nat) {
    && !Owned(s, h) && h !in s.verify && s.sending != ToVerify(h)
    && forall v | v in s.verifiers :: s.verifiers[v].gen != h
  }

  /** The endpoint reads COMPLETE and nothing works on any of its generations. */
  ghost predicate Resting(s: State, id: string) {
    && id in s.current && s.current[id] < |s.cells| && s.cells[s.current[id]].id == id
    && s.cells[s.current[id]].status == COMPLETE
    && forall h | 0 <= h < |s.cells| && s.cells[h].id == id :: Idling(s, h)
  }

  lemma IdlingInHalf(s: State, g: nat, next: Subscriber, cell: Cells, m: seq<Member>, h: nat)
    requires g in s.subscribers && g < |s.cells| && Idling(s, h)
    ensures Idling(WriteHalf(s, g, next, cell, m), h)
  {
  }

  lemma IdlingInCheck(c: Machine, s: State, v: nat, net: Net, h: nat)
    requires Enabled(c, s, CheckGroup(v, net)) && h < |s.cells| && Idling(s, h)
    ensures Idling(CheckRecorded(c, s, v, net), h)
  {
  }

  lemma IdlingInVisit(c: Machine, s: State, id: string, h: nat)
    requires Enabled(c, s, Visit(id)) && h < |s.cells| && Idling(s, h)
    requires id in s.current && s.current[id] == h ==> s.cells[h].status == COMPLETE && s.scans % CHECK_FREQ != 0
    ensures Idling(VisitEndpoint(c, s, id), h)
  {
  }

  lemma IdlingInTake(s: State, v: nat, h: nat)
    requires s.verify != [] && s.verify[0] < |s.cells| && Idling(s, h)
    ensures Idling(TakeFromVerify(s, v), h)
  {
    assert s.verify == [s.verify[0]] + s.verify[1..];
  }

  lemma IdlingInSpawn(s: State, h: nat)
    requires s.pending != [] && Idling(s, h)
    ensures Idling(Spawn(s), h)
  {
    assert s.pending == [s.pending[0]] + s.pending[1..];
  }

  lemma IdlingInSend(s: State, h: nat)
    requires s.sending != Nothing && Idling(s, h)
    ensures Idling(SendOne(s), h)
  {
  }

  /** Idling generations stay idle unless the scan visits their endpoint. */
  lemma IdlingStep(c: Machine, s: State, l: Label, h: nat)
    requires Enabled(c, s, l) && h < |s.cells| && Idling(s, h)
    requires l.Visit? && l.id in s.current && s.current[l.id] == h ==> s.cells[h].status == COMPLETE && s.scans % CHECK_FREQ != 0
    ensures Idling(Do(c, s, l), h)
  {
    match l
    case RunCheck(g, net) =>
      var gs, out := s.subscribers[g].todo, Checked(c, s, g, net);
      IdlingInHalf(s, g, if out.status.Some? then Subscribing(gs[1..]) else Posting(gs), Wrote(s.cells[g], gs[0], out), out.members, h);
    case RunPost(g, net) =>
      var gs, out := s.subscribers[g].todo, Posted(c, s, g, net);
      IdlingInHalf(s, g, Subscribing(gs[1..]), Wrote(s.cells[g], gs[0], out), out.members, h);
    case CheckGroup(v, net) => IdlingInCheck(c, s, v, net, h);
    case Visit(id) => IdlingInVisit(c, s, id, h);
    case Send => IdlingInSend(s, h);
    case SpawnSubscriber => IdlingInSpawn(s, h);
    case TakeVerify(v) => IdlingInTake(s, v, h);
    case _ =>
  }

  /** Cells that appear in a step belong to the endpoint the scan visits. */
  lemma NewCells(c: Machine, s: State, l: Label, id: string)
    requires Enabled(c, s, l) && Resting(s, id)
    ensures var s' := Do(c, s, l);
            && (forall h | |s.cells| <= h < |s'.cells| :: s'.cells[h].id != id)
            && id in s'.current && s'.current[id] == s.current[id]
  {
    match l
    case Visit(e) => assert Do(c, s, l) == VisitEndpoint(c, s, e);
    case _ =>
  }

  /** One generation of a resting endpoint. */
  lemma RestingIdles(c: Machine, s: State, l: Label, id: string, h: nat)
    requires CurrentOk(c, s.current, s.cells) && Resting(s, id) && Enabled(c, s, l) && (l == Visit(id) ==> s.scans % CHECK_FREQ != 0)
    requires h < |s.cells| && s.cells[h].id == id
    ensures var s' := Do(c, s, l); h < |s'.cells| && s'.cells[h] == s.cells[h] && Idling(s', h)
  {
    assert Idling(s, h);
    IdlingStep(c, s, l, h);
    CellsAreIsolated(c, s, l, h);
  }

  lemma RestingIsNotContacted(c: Machine, s: State, l: Label, id: string)
    requires Resting(s, id) && Enabled(c, s, l)
    ensures !Contacts(c, s, l, id)
  {
  }

  lemma RestingStep(c: Machine, s: State, l: Label, id: string)
    requires Inv(c, s) && Resting(s, id) && Enabled(c, s, l)
    requires l == Visit(id) ==> s.scans % CHECK_FREQ != 0
    ensures Resting(Do(c, s, l), id) && !Contacts(c, s, l, id)
  {
    var s' := Do(c, s, l);
    RestingIsNotContacted(c, s, l, id);
    NewCells(c, s, l, id);
    RestingIdles(c, s, l, id, s.current[id]);
    forall h | 0 <= h < |s'.cells| && s'.cells[h].id == id ensures Idling(s', h) {
      assert h < |s.cells|;
      CellsAreIsolated(c, s, l, h);
      RestingIdles(c, s, l, id, h);
    }
  }

  /** Between scan `start` and the next check. */
  predicate Between(s: State, start: nat) {
    start <= s.scans && (s.scanning ==> start < s.scans)
  }

  lemma ScansGrow(c: Machine, s: State, l: Label, start: nat)
    requires Enabled(c, s, l)
    ensures s.scans <= Do(c, s, l).scans && (Between(s, start) ==> Between(Do(c, s, l), start))
  {
    match l
    case Visit(id) => assert Do(c, s, l).scans == s.scans && Do(c, s, l).scanning == s.scanning;
    case _ =>
  }

  /** A drained endpoint that reads COMPLETE is not contacted before the next scan whose number is a
      multiple of the check frequency, so no loss can be noticed, let alone repaired, any earlier. */
  lemma {:induction false} NoEarlyRepair(c: Machine, s: State, ls: seq<Label>, id: string)
    requires Inv(c, s) && Drained(s) && id in s.current && s.cells[s.current[id]].status == COMPLETE
    requires Runs(c, s, ls) && After(c, s, ls).scans < NextCheck(s.scans)
    ensures !ContactedIn(c, s, ls, id)
    ensures Resting(After(c, s, ls), id) && Between(After(c, s, ls), s.scans)
    decreases |ls|
  {
    if ls == [] {
    } else {
      var last := |ls| - 1;
      var t := After(c, s, ls[..last]);
      ScansGrow(c, t, ls[last], s.scans);
      NoEarlyRepair(c, s, ls[..last], id);
      InvHolds(c, s, ls[..last]);
      NoCheckBetween(s.scans, t.scans);
      RestingStep(c, t, ls[last], id);
    }
  }

  lemma NoCheckBetween(n: nat, k: nat)
    ensures n < k < NextCheck(n) ==> k % CHECK_FREQ != 0
  {
  }
}
