/** The two levels of the model agree: a subscribe goroutine that is not interleaved with other work on
    its endpoint does exactly one `Pass`. */
module ReconcilerPass {
  import opened Subscriptions
  import opened PrefixGroups
  import opened SubscribePass
  import opened DuplicateCheck
  import opened Reconciler
  import opened ReconcilerSafety
  import opened ReconcilerRuns

  /** The steps of one iteration: the check, and the POST if it finds the group missing. */
  function IterationLabels(c: Machine, id: string, g: nat, gr: Group, net: Net, m: seq<Member>): seq<Label> {
    [RunCheck(g, net)] + (if CheckHalf(c.site, id, gr, net, m).status.None? then [RunPost(g, net)] else [])
  }

  function GroupLabels(c: Machine, id: string, g: nat, gs: seq<Group>, nets: seq<Net>, m: seq<Member>): seq<Label>
    requires |gs| == |nets|
    decreases |gs|
  {
    if gs == [] then []
    else
      IterationLabels(c, id, g, gs[0], nets[0], m) +
      GroupLabels(c, id, g, gs[1..], nets[1..], SubscribeGroup(c.site, id, gs[0], nets[0], m).members)
  }

  /** The goroutine of `g` has groups `gs` left, a BMC `m` in front of it and `recorded` behind it. */
  predicate Facing(t: State, g: nat, id: string, gs: seq<Group>, o: Outcome) {
    && g < |t.cells| && t.cells[g].id == id && t.cells[g].prefixes == o.recorded && BmcOf(t, id) == o.members
    && g in t.subscribers && t.subscribers[g] == Subscribing(gs)
  }

  /** What a group iteration leaves. */
  function Iterated(c: Site, id: string, gr: Group, net: Net, o: Outcome): Outcome {
    var it := SubscribeGroup(c, id, gr, net, o.members);
    Outcome(it.members, if it.record then AppendUnique(gr, o.recorded) else o.recorded)
  }

  /** What the first half leaves: the rest of the groups, or the POST of this one. */
  lemma CheckFaces(c: Machine, t: State, g: nat, id: string, gs: seq<Group>, net: Net, o: Outcome)
    requires gs != [] && Facing(t, g, id, gs, o)
    ensures Enabled(c, t, RunCheck(g, net))
    ensures var u, out := HandleCheck(c, t, g, net), CheckHalf(c.site, id, gs[0], net, o.members);
            && g in u.subscribers
            && u.subscribers[g] == (if out.status.Some? then Subscribing(gs[1..]) else Posting(gs))
            && g < |u.cells| && u.cells[g] == Wrote(t.cells[g], gs[0], out) && BmcOf(u, id) == out.members
  {
  }

  lemma PostFaces(c: Machine, u: State, g: nat, id: string, gs: seq<Group>, net: Net)
    requires gs != [] && g in u.subscribers && u.subscribers[g] == Posting(gs) && g < |u.cells| && u.cells[g].id == id
    ensures Enabled(c, u, RunPost(g, net))
    ensures var w, out := HandlePost(c, u, g, net), PostHalf(c.site, id, gs[0], net, BmcOf(u, id));
            && g in w.subscribers && w.subscribers[g] == Subscribing(gs[1..])
            && g < |w.cells| && w.cells[g] == Wrote(u.cells[g], gs[0], out) && BmcOf(w, id) == out.members
  {
  }

  lemma IterationLeads(c: Machine, t: State, g: nat, id: string, gs: seq<Group>, net: Net, o: Outcome) returns (u: State)
    requires gs != [] && Facing(t, g, id, gs, o)
    ensures Leads(c, t, IterationLabels(c, id, g, gs[0], net, o.members), u)
    ensures Facing(u, g, id, gs[1..], Iterated(c.site, id, gs[0], net, o))
  {
    CheckFaces(c, t, g, id, gs, net, o);
    LeadsOne(c, t, RunCheck(g, net));
    u := HandleCheck(c, t, g, net);
    if CheckHalf(c.site, id, gs[0], net, o.members).status.None? {
      PostFaces(c, u, g, id, gs, net);
      LeadsExtend(c, t, [RunCheck(g, net)], u, RunPost(g, net));
      u := HandlePost(c, u, g, net);
    } else {
      assert [RunCheck(g, net)] + [] == [RunCheck(g, net)];
    }
  }

  lemma {:induction false} GroupsLead(c: Machine, t: State, g: nat, id: string, gs: seq<Group>, nets: seq<Net>, o: Outcome) returns (u: State)
    requires |gs| == |nets| && Facing(t, g, id, gs, o)
    ensures Leads(c, t, GroupLabels(c, id, g, gs, nets, o.members), u)
    ensures Facing(u, g, id, [], GroupsFrom(c.site, id, gs, nets, o))
    decreases |gs|
  {
    if gs == [] {
      u := t;
    } else {
      var w := IterationLeads(c, t, g, id, gs, nets[0], o);
      var o' := Iterated(c.site, id, gs[0], nets[0], o);
      u := GroupsLead(c, w, g, id, gs[1..], nets[1..], o');
      LeadsConcat(c, t, IterationLabels(c, id, g, gs[0], nets[0], o.members), w,
                  GroupLabels(c, id, g, gs[1..], nets[1..], o'.members), u);
    }
  }

  function PassLabels(c: Machine, id: string, g: nat, pruneNet: Net, nets: seq<Net>, m: seq<Member>): seq<Label>
    requires |nets| == |Groups(c.site)|
  {
    [RunPrune(g, pruneNet)] + GroupLabels(c, id, g, Groups(c.site), nets, Prune(c.site, id, pruneNet, m)) + [Finish(g)]
  }

  /** From prune to the final write, an uninterrupted goroutine turns the BMC and the prefix list into
      those of `Pass` and ends COMPLETE. */
  lemma UninterruptedPass(c: Machine, s: State, g: nat, pruneNet: Net, nets: seq<Net>)
    requires Inv(c, s) && g in s.subscribers && s.subscribers[g] == Pruning && |nets| == |Groups(c.site)|
    ensures var id := s.cells[g].id;
            var ls := PassLabels(c, id, g, pruneNet, nets, BmcOf(s, id));
            && Runs(c, s, ls)
            && g < |After(c, s, ls).cells|
            && After(c, s, ls).cells[g].status == COMPLETE
            && Pass(c.site, id, pruneNet, nets, BmcOf(s, id)) == Outcome(BmcOf(After(c, s, ls), id), After(c, s, ls).cells[g].prefixes)
  {
    var id, gs := s.cells[g].id, Groups(c.site);
    assert Fresh(s, g);
    LeadsOne(c, s, RunPrune(g, pruneNet));
    var t := Do(c, s, RunPrune(g, pruneNet));
    var o := Outcome(Prune(c.site, id, pruneNet, BmcOf(s, id)), []);
    var u := GroupsLead(c, t, g, id, gs, nets, o);
    LeadsConcat(c, s, [RunPrune(g, pruneNet)], t, GroupLabels(c, id, g, gs, nets, o.members), u);
    LeadsExtend(c, s, [RunPrune(g, pruneNet)] + GroupLabels(c, id, g, gs, nets, o.members), u, Finish(g));
  }

  // ------------------------------------------------ a verify goroutine

  function CheckLabels(v: nat, nets: seq<Net>): seq<Label> {
    if nets == [] then [] else [CheckGroup(v, nets[0])] + CheckLabels(v, nets[1..])
  }

  /** A verify goroutine of generation `g` has the groups `gs` left, with BMC `m` and cells `cell`. */
  predicate Checking(t: State, v: nat, g: nat, gs: seq<Group>, cell: Cells, m: seq<Member>) {
    && v in t.verifiers && t.verifiers[v] == Verifying(g, gs)
    && g < |t.cells| && t.cells[g] == cell && BmcOf(t, cell.id) == m
  }

  /** The cell after a verify pass that found `missing`. */
  function Verified(cell: Cells, missing: bool): Cells {
    if missing then cell.(status := ERROR) else cell
  }

  lemma CheckStep(c: Machine, t: State, v: nat, g: nat, gs: seq<Group>, net: Net, cell: Cells, m: seq<Member>)
    requires gs != [] && Checking(t, v, g, gs, cell, m)
    ensures Enabled(c, t, CheckGroup(v, net))
    ensures var scan := IsDup(c.site, cell.id, gs[0], net, m);
            Checking(CheckRecorded(c, t, v, net), v, g, gs[1..], Verified(cell, scan.check != Present), scan.members)
  {
  }

  lemma {:induction false} ChecksLead(c: Machine, t: State, v: nat, g: nat, gs: seq<Group>, nets: seq<Net>, cell: Cells, m: seq<Member>)
    returns (u: State)
    requires |gs| == |nets| && Checking(t, v, g, gs, cell, m)
    ensures Leads(c, t, CheckLabels(v, nets), u)
    ensures var r := VerifyFrom(c.site, cell.id, gs, nets, m); Checking(u, v, g, [], Verified(cell, r.1), r.0)
    decreases |gs|
  {
    if gs == [] {
      u := t;
    } else {
      var scan := IsDup(c.site, cell.id, gs[0], nets[0], m);
      CheckStep(c, t, v, g, gs, nets[0], cell, m);
      LeadsOne(c, t, CheckGroup(v, nets[0]));
      var w := CheckRecorded(c, t, v, nets[0]);
      u := ChecksLead(c, w, v, g, gs[1..], nets[1..], Verified(cell, scan.check != Present), scan.members);
      LeadsConcat(c, t, [CheckGroup(v, nets[0])], w, CheckLabels(v, nets[1..]), u);
    }
  }

  function VerifyLabels(v: nat, nets: seq<Net>): seq<Label> {
    [StartVerify(v)] + CheckLabels(v, nets) + [EndVerify(v)]
  }

  lemma StartLeads(c: Machine, s: State, v: nat, g: nat) returns (t: State)
    requires v in s.verifiers && s.verifiers[v] == Spawned(g) && g < |s.cells|
    ensures Leads(c, s, [StartVerify(v)], t) && Checking(t, v, g, s.cells[g].prefixes, s.cells[g], BmcOf(s, s.cells[g].id))
  {
    LeadsOne(c, s, StartVerify(v));
    t := StartChecks(s, v);
  }

  lemma EndLeads(c: Machine, u: State, v: nat, g: nat, cell: Cells, m: seq<Member>) returns (w: State)
    requires Checking(u, v, g, [], cell, m)
    ensures Leads(c, u, [EndVerify(v)], w)
    ensures v !in w.verifiers && g < |w.cells| && w.cells[g] == cell && BmcOf(w, cell.id) == m
  {
    LeadsOne(c, u, EndVerify(v));
    w := Do(c, u, EndVerify(v));
  }

  /** From its start to its end, an uninterrupted verify goroutine leaves the BMC and the status of a verify pass
      over the recorded groups, and no trace of itself. */
  lemma UninterruptedVerify(c: Machine, s: State, v: nat, g: nat, nets: seq<Net>)
    requires v in s.verifiers && s.verifiers[v] == Spawned(g) && g < |s.cells| && |nets| == |s.cells[g].prefixes|
    ensures var cell, ls := s.cells[g], VerifyLabels(v, nets);
            var r := VerifyFrom(c.site, cell.id, cell.prefixes, nets, BmcOf(s, cell.id));
            && Runs(c, s, ls)
            && var t := After(c, s, ls);
               && v !in t.verifiers && BmcOf(t, cell.id) == r.0
               && g < |t.cells| && t.cells[g] == cell.(status := if r.1 then ERROR else cell.status)
  {
    var cell := s.cells[g];
    var m := BmcOf(s, cell.id);
    var r := VerifyFrom(c.site, cell.id, cell.prefixes, nets, m);
    var t := StartLeads(c, s, v, g);
    var u := ChecksLead(c, t, v, g, cell.prefixes, nets, cell, m);
    var w := EndLeads(c, u, v, g, Verified(cell, r.1), r.0);
    LeadsConcat(c, s, [StartVerify(v)], t, CheckLabels(v, nets), u);
    LeadsConcat(c, s, [StartVerify(v)] + CheckLabels(v, nets), u, [EndVerify(v)], w);
  }

  // ------------------------------------------------ what the scan can see in the middle of a pass

  /** The cells after the check step of a goroutine: ERROR if the list or a member before the first match cannot be
      read; COMPLETE and a record if the first match carries our name or can be patched; else unchanged, with
      the POST still to come. */
  lemma CheckStepWrites(c: Machine, s: State, g: nat, net: Net, p: nat)
    requires Inv(c, s) && Enabled(c, s, RunCheck(g, net))
    requires FirstStop(c.site, s.cells[g].id, s.subscribers[g].todo[0], net, BmcOf(s, s.cells[g].id), p)
    ensures var cell, gr, m, t := s.cells[g], s.subscribers[g].todo[0], BmcOf(s, s.cells[g].id), HandleCheck(c, s, g, net);
            var rest := s.subscribers[g].todo[1..];
            g < |t.cells| && g in t.subscribers &&
            if net.fails(ListSubscriptions) || (p < |m| && net.fails(GetSubscription(m[p].oid))) then
              t.cells[g] == cell.(status := ERROR) && t.subscribers[g] == Subscribing(rest)
            else if p < |m| && (m[p].sub.context == cell.id || !net.fails(PatchContext(m[p].oid))) then
              t.cells[g] == Cells(cell.id, COMPLETE, AppendUnique(gr, cell.prefixes)) && t.subscribers[g] == Subscribing(rest)
            else
              t.cells[g] == cell && t.subscribers[g] == Posting(s.subscribers[g].todo)
  {
    HalvesWrite(c.site, s.cells[g].id, s.subscribers[g].todo[0], net, BmcOf(s, s.cells[g].id), p);
  }

  /** The cells after its POST step: ERROR if the event types cannot be read, else a record if the BMC took it. */
  lemma PostStepWrites(c: Machine, s: State, g: nat, net: Net)
    requires Inv(c, s) && Enabled(c, s, RunPost(g, net))
    ensures var cell, gr, t := s.cells[g], s.subscribers[g].todo[0], HandlePost(c, s, g, net);
            g < |t.cells| && g in t.subscribers && t.subscribers[g] == Subscribing(s.subscribers[g].todo[1..]) &&
            if net.fails(GetEventTypes) then t.cells[g] == cell.(status := ERROR)
            else t.cells[g] == cell.(prefixes := if !net.fails(PostSubscription) && net.status in {200, 201, 204} then AppendUnique(gr, cell.prefixes) else cell.prefixes)
  {
  }
}
