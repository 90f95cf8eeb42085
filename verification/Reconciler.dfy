/**
 The subscription reconciler as a state machine: the scan loop `doRFSubscribe`, the goroutines of
 `rfSubscribe` and `rfVerifySub`, the two channels, the `endpoints` map and one BMC per endpoint
 (cmd/hmcollector/rf_subscriptions.go).

 Every `endpoints[id] = RFSub{...}` creates a new *generation*: fresh status and prefix cells.  The
 cells of all generations form a sequence, and goroutines and channels hold generation numbers.
 A group iteration is two steps, the duplicate check and the POST, so that other goroutines of the
 endpoint can come in between.  The final COMPLETE write is a step of its own, so statuses written
 in the middle of a pass are visible to the scan and to verify.
 */
module Reconciler {
  import opened Basics
  import opened Subscriptions
  import opened PrefixGroups

  const CHANNEL_SIZE := 1000
  const CHECK_FREQ := 20

  datatype Cells = Cells(id: string, status: Status, prefixes: seq<Group>)

  /** What the scan goroutine is about to put on a channel. */
  datatype Sending = Nothing | ToPending(gen: nat) | ToVerify(gen: nat)

  /** A subscribe goroutine: before its prune loop, with groups left to handle, or about to POST the first
      of them because its check found it missing. */
  datatype Subscriber = Pruning | Subscribing(todo: seq<Group>) | Posting(todo: seq<Group>)

  /** A verify goroutine: not yet started, or with recorded groups left to check. */
  datatype Verifier = Spawned(gen: nat) | Verifying(gen: nat, todo: seq<Group>)

  datatype State = State(
    scans: nat,                        // subCheckCnt
    scanning: bool,
    todo: set<string>,                 // endpoints of the snapshot not yet visited
    sending: Sending,
    current: map<string, nat>,         // the endpoints map
    cells: seq<Cells>,
    pending: seq<nat>,                 // pendingRFSubscriptions
    verify: seq<nat>,                  // verifyRFSubscriptions
    subscribers: map<nat, Subscriber>, // in-flight rfSubscribe goroutines by generation
    verifiers: map<nat, Verifier>,     // in-flight rfVerifySub goroutines by goroutine number
    bmcs: map<string, seq<Member>>)

  datatype Label =
    | ScanStart(snapshot: set<string>)
    | Visit(id: string)
    | Send
    | ScanEnd
    | SpawnSubscriber
    | RunPrune(gen: nat, net: Net)
    | RunCheck(gen: nat, net: Net)
    | RunPost(gen: nat, net: Net)
    | Finish(gen: nat)
    | TakeVerify(v: nat)
    | StartVerify(v: nat)
    | CheckGroup(v: nat, net: Net)
    | EndVerify(v: nat)
    | Forget(id: string, oids: set<string>)  // a BMC loses subscriptions

  /** `skips` is the test that leaves out the PDUs without event support. */
  datatype Machine = Machine(site: Site, skips: string -> bool)

  function BmcOf(s: State, id: string): seq<Member> {
    if id in s.bmcs then s.bmcs[id] else []
  }

  ghost predicate Initial(s: State) {
    && s.scans == 0 && !s.scanning && s.todo == {} && s.sending == Nothing
    && s.current == map[] && s.cells == [] && s.pending == [] && s.verify == []
    && s.subscribers == map[] && s.verifiers == map[]
    && BmcsOk(s.bmcs)
  }

  // ---------------------------------------------------------------- steps

  predicate Enabled(c: Machine, s: State, l: Label) {
    match l
    case ScanStart(_) => !s.scanning
    case Visit(id) => s.scanning && s.sending == Nothing && id in s.todo && (id in s.current ==> s.current[id] < |s.cells|)
    case Send =>
      && s.sending != Nothing
      && (s.sending.ToPending? ==> |s.pending| < CHANNEL_SIZE)
      && (s.sending.ToVerify? ==> |s.verify| < CHANNEL_SIZE)
    case ScanEnd => s.scanning && s.todo == {} && s.sending == Nothing
    case SpawnSubscriber => s.pending != [] && s.pending[0] !in s.subscribers
    case RunPrune(g, _) => g in s.subscribers && s.subscribers[g] == Pruning && g < |s.cells|
    case RunCheck(g, _) =>
      g in s.subscribers && s.subscribers[g].Subscribing? && s.subscribers[g].todo != [] && g < |s.cells|
    case RunPost(g, _) =>
      g in s.subscribers && s.subscribers[g].Posting? && s.subscribers[g].todo != [] && g < |s.cells|
    case Finish(g) => g in s.subscribers && s.subscribers[g] == Subscribing([]) && g < |s.cells|
    case TakeVerify(v) => s.verify != [] && s.verify[0] < |s.cells| && v !in s.verifiers
    case StartVerify(v) => v in s.verifiers && s.verifiers[v].Spawned? && s.verifiers[v].gen < |s.cells|
    case CheckGroup(v, _) =>
      v in s.verifiers && s.verifiers[v].Verifying? && s.verifiers[v].todo != [] && s.verifiers[v].gen < |s.cells|
    case EndVerify(v) => v in s.verifiers && s.verifiers[v].Verifying? && s.verifiers[v].todo == []
    case Forget(_, _) => true
  }

  /** The scan re-queues a new endpoint and one whose status cell reads ERROR. */
  predicate Requeues(s: State, id: string)
    requires id in s.current ==> s.current[id] < |s.cells|
  {
    id !in s.current || s.cells[s.current[id]].status == ERROR
  }

  /** Fresh cells for an endpoint, about to be sent to the subscribers. */
  function NewGeneration(s: State, id: string): State {
    s.(todo := s.todo - {id},
       cells := s.cells + [Cells(id, PENDING, [])],
       current := s.current[id := |s.cells|],
       sending := ToPending(|s.cells|))
  }

  function VisitEndpoint(c: Machine, s: State, id: string): State
    requires Enabled(c, s, Visit(id))
  {
    var s' := s.(todo := s.todo - {id});
    if c.skips(id) then s'
    else if Requeues(s, id) then NewGeneration(s, id)
    else if s.scans % CHECK_FREQ == 0 then s'.(sending := ToVerify(s.current[id]))
    else s'
  }

  function Checked(c: Machine, s: State, g: nat, net: Net): Written
    requires Enabled(c, s, RunCheck(g, net))
  {
    var id := s.cells[g].id;
    CheckHalf(c.site, id, s.subscribers[g].todo[0], net, BmcOf(s, id))
  }

  function Posted(c: Machine, s: State, g: nat, net: Net): Written
    requires Enabled(c, s, RunPost(g, net))
  {
    var id := s.cells[g].id;
    PostHalf(c.site, id, s.subscribers[g].todo[0], net, BmcOf(s, id))
  }

  /** The cells after half an iteration for group `gr`. */
  function Wrote(cell: Cells, gr: Group, out: Written): Cells {
    Cells(cell.id,
          if out.status.Some? then out.status.value else cell.status,
          if out.record then AppendUnique(gr, cell.prefixes) else cell.prefixes)
  }

  /** The writes of half an iteration. */
  function WriteHalf(s: State, g: nat, next: Subscriber, cell: Cells, m: seq<Member>): State
    requires g < |s.cells|
  {
    s.(cells := s.cells[g := cell], subscribers := s.subscribers[g := next], bmcs := s.bmcs[cell.id := m])
  }

  function HandleCheck(c: Machine, s: State, g: nat, net: Net): State
    requires Enabled(c, s, RunCheck(g, net))
  {
    var gs, out := s.subscribers[g].todo, Checked(c, s, g, net);
    WriteHalf(s, g, if out.status.Some? then Subscribing(gs[1..]) else Posting(gs), Wrote(s.cells[g], gs[0], out), out.members)
  }

  function HandlePost(c: Machine, s: State, g: nat, net: Net): State
    requires Enabled(c, s, RunPost(g, net))
  {
    var gs, out := s.subscribers[g].todo, Posted(c, s, g, net);
    WriteHalf(s, g, Subscribing(gs[1..]), Wrote(s.cells[g], gs[0], out), out.members)
  }

  /** The writes of a group check. */
  function WriteCheck(s: State, v: nat, g: nat, todo: seq<Group>, missing: bool, m: seq<Member>): State
    requires g < |s.cells|
  {
    s.(cells := if missing then s.cells[g := s.cells[g].(status := ERROR)] else s.cells,
       verifiers := s.verifiers[v := Verifying(g, todo)],
       bmcs := s.bmcs[s.cells[g].id := m])
  }

  function CheckRecorded(c: Machine, s: State, v: nat, net: Net): State
    requires Enabled(c, s, CheckGroup(v, net))
  {
    var g, gs := s.verifiers[v].gen, s.verifiers[v].todo;
    var id := s.cells[g].id;
    var scan := IsDup(c.site, id, gs[0], net, BmcOf(s, id));
    WriteCheck(s, v, g, gs[1..], scan.check != Present, scan.members)
  }

  function SendOne(s: State): State
    requires s.sending != Nothing
  {
    if s.sending.ToPending? then s.(pending := s.pending + [s.sending.gen], sending := Nothing)
    else s.(verify := s.verify + [s.sending.gen], sending := Nothing)
  }

  function Spawn(s: State): State
    requires s.pending != []
  {
    s.(pending := s.pending[1..], subscribers := s.subscribers[s.pending[0] := Pruning])
  }

  function PruneBmc(c: Machine, s: State, g: nat, net: Net): State
    requires g < |s.cells|
  {
    var id := s.cells[g].id;
    s.(subscribers := s.subscribers[g := Subscribing(Groups(c.site))],
       bmcs := s.bmcs[id := Prune(c.site, id, net, BmcOf(s, id))])
  }

  /** The last write of a pass, whatever happened in it. */
  function FinishPass(s: State, g: nat): State
    requires g < |s.cells|
  {
    s.(cells := s.cells[g := s.cells[g].(status := COMPLETE)], subscribers := s.subscribers - {g})
  }

  /** Only a record that reads COMPLETE is verified. */
  function TakeFromVerify(s: State, v: nat): State
    requires s.verify != [] && s.verify[0] < |s.cells|
  {
    var g := s.verify[0];
    if s.cells[g].status == COMPLETE then s.(verify := s.verify[1..], verifiers := s.verifiers[v := Spawned(g)])
    else s.(verify := s.verify[1..])
  }

  function StartChecks(s: State, v: nat): State
    requires v in s.verifiers && s.verifiers[v].gen < |s.cells|
  {
    var g := s.verifiers[v].gen;
    s.(verifiers := s.verifiers[v := Verifying(g, s.cells[g].prefixes)])
  }

  function Do(c: Machine, s: State, l: Label): State
    requires Enabled(c, s, l)
  {
    match l
    case ScanStart(snapshot) => s.(scans := s.scans + 1, scanning := true, todo := snapshot)
    case Visit(id) => VisitEndpoint(c, s, id)
    case Send => SendOne(s)
    case ScanEnd => s.(scanning := false)
    case SpawnSubscriber => Spawn(s)
    case RunPrune(g, net) => PruneBmc(c, s, g, net)
    case RunCheck(g, net) => HandleCheck(c, s, g, net)
    case RunPost(g, net) => HandlePost(c, s, g, net)
    case Finish(g) => FinishPass(s, g)
    case TakeVerify(v) => TakeFromVerify(s, v)
    case StartVerify(v) => StartChecks(s, v)
    case CheckGroup(v, net) => CheckRecorded(c, s, v, net)
    case EndVerify(v) => s.(verifiers := s.verifiers - {v})
    case Forget(id, oids) => s.(bmcs := s.bmcs[id := Lose(BmcOf(s, id), oids)])
  }

  // ---------------------------------------------------------------- runs

  /** All steps of a run are enabled, and where it ends. */
  predicate Runs(c: Machine, s: State, ls: seq<Label>)
    decreases |ls|, 0
  {
    ls == [] ||
    var last := |ls| - 1;
    Runs(c, s, ls[..last]) && Enabled(c, After(c, s, ls[..last]), ls[last])
  }

  function After(c: Machine, s: State, ls: seq<Label>): State
    requires Runs(c, s, ls)
    decreases |ls|, 1
  {
    if ls == [] then s
    else var last := |ls| - 1; Do(c, After(c, s, ls[..last]), ls[last])
  }

  lemma {:induction false} RunsPrefix(c: Machine, s: State, ls: seq<Label>, k: nat)
    requires Runs(c, s, ls) && k <= |ls|
    ensures Runs(c, s, ls[..k])
    decreases |ls|
  {
    if k == |ls| {
      assert ls[..k] == ls;
    } else {
      RunsPrefix(c, s, ls[..|ls| - 1], k);
      assert ls[..|ls| - 1][..k] == ls[..k];
    }
  }

  lemma PrefixRuns(c: Machine, s: State, ls: seq<Label>, k: nat)
    requires Runs(c, s, ls) && k < |ls|
    ensures Runs(c, s, ls[..k]) && Enabled(c, After(c, s, ls[..k]), ls[k])
    ensures Runs(c, s, ls[..k + 1]) && After(c, s, ls[..k + 1]) == Do(c, After(c, s, ls[..k]), ls[k])
  {
    RunsPrefix(c, s, ls, k + 1);
    assert ls[..k + 1][..k] == ls[..k] && ls[..k + 1][k] == ls[k];
  }

  // ---------------------------------------------------------------- the invariant

  /** A subscribe pass still has to reach its final write for this generation. */
  predicate Owned(s: State, g: nat) {
    s.sending == ToPending(g) || g in s.pending || g in s.subscribers
  }

  predicate SuffixOf(a: seq<Group>, b: seq<Group>) {
    |a| <= |b| && a == b[|b| - |a|..]
  }

  ghost predicate CurrentOk(c: Machine, current: map<string, nat>, cells: seq<Cells>) {
    forall id | id in current :: current[id] < |cells| && cells[current[id]].id == id && !c.skips(id)
  }

  predicate Below(q: seq<nat>, n: nat) {
    forall g | g in q :: g < n
  }

  predicate SubscriberOk(c: Machine, w: Subscriber) {
    w.Pruning? || (SuffixOf(w.todo, Groups(c.site)) && (w.Posting? ==> w.todo != []))
  }

  ghost predicate SubscribersOk(c: Machine, subscribers: map<nat, Subscriber>, n: nat) {
    forall g | g in subscribers :: g < n && SubscriberOk(c, subscribers[g])
  }

  ghost predicate VerifiersOk(verifiers: map<nat, Verifier>, n: nat) {
    forall v | v in verifiers :: verifiers[v].gen < n
  }

  /** Prefix lists stay pairwise different as sets and within the groups of the site. */
  ghost predicate CellsOk(c: Machine, cells: seq<Cells>) {
    forall g | 0 <= g < |cells| :: GoodList(Groups(c.site), cells[g].prefixes)
  }

  ghost predicate BmcsOk(bmcs: map<string, seq<Member>>) {
    forall id | id in bmcs :: DistinctOids(bmcs[id])
  }

  /** A generation is in at most one of: being sent, queued, in flight. */
  ghost predicate Exclusive(s: State) {
    && Distinct(s.pending)
    && (forall g | g in s.pending :: g !in s.subscribers && s.sending != ToPending(g))
    && (forall g | g in s.subscribers :: s.sending != ToPending(g))
  }

  /** No group has been handled for this generation yet. */
  predicate Fresh(s: State, g: nat) {
    s.sending == ToPending(g) || g in s.pending || (g in s.subscribers && s.subscribers[g] == Pruning)
  }

  ghost predicate Statuses(s: State) {
    && (forall g | 0 <= g < |s.cells| :: s.cells[g].status == PENDING ==> Owned(s, g))
    && (forall g | 0 <= g < |s.cells| :: Fresh(s, g) ==> s.cells[g].status == PENDING && s.cells[g].prefixes == [])
    && (forall v | v in s.verifiers :: !Fresh(s, s.verifiers[v].gen))
  }

  ghost predicate Inv(c: Machine, s: State) {
    && CurrentOk(c, s.current, s.cells)
    && (s.sending != Nothing ==> s.sending.gen < |s.cells|)
    && Below(s.pending, |s.cells|)
    && Below(s.verify, |s.cells|)
    && SubscribersOk(c, s.subscribers, |s.cells|)
    && VerifiersOk(s.verifiers, |s.cells|)
    && CellsOk(c, s.cells)
    && BmcsOk(s.bmcs)
    && Exclusive(s)
    && Statuses(s)
    && (!s.scanning ==> s.todo == {} && s.sending == Nothing)
  }
}
