/** Composition of runs of the reconciler, and building blocks for concrete runs. */
module ReconcilerRuns {
  import opened Basics
  import opened Subscriptions
  import opened PrefixGroups
  import opened Reconciler

  // ------------------------------------------------ runs compose

  lemma Extend(c: Machine, s: State, ls: seq<Label>, l: Label)
    requires Runs(c, s, ls) && Enabled(c, After(c, s, ls), l)
    ensures Runs(c, s, ls + [l]) && After(c, s, ls + [l]) == Do(c, After(c, s, ls), l)
  {
    assert (ls + [l])[..|ls|] == ls;
  }

  ghost predicate Leads(c: Machine, s: State, ls: seq<Label>, t: State) {
    Runs(c, s, ls) && After(c, s, ls) == t
  }

  lemma LeadsExtend(c: Machine, s: State, ls: seq<Label>, t: State, l: Label)
    requires Leads(c, s, ls, t) && Enabled(c, t, l)
    ensures Leads(c, s, ls + [l], Do(c, t, l))
  {
    Extend(c, s, ls, l);
  }

  lemma {:induction false} ConcatPrefix(c: Machine, s: State, a: seq<Label>, t: State, b: seq<Label>, k: nat)
    requires Leads(c, s, a, t) && Runs(c, t, b) && k <= |b|
    ensures Runs(c, t, b[..k]) && Leads(c, s, a + b[..k], After(c, t, b[..k]))
    decreases k
  {
    if k == 0 {
      assert a + b[..k] == a;
    } else {
      PrefixRuns(c, t, b, k - 1);
      ConcatPrefix(c, s, a, t, b, k - 1);
      LeadsExtend(c, s, a + b[..k - 1], After(c, t, b[..k - 1]), b[k - 1]);
      assert a + b[..k - 1] + [b[k - 1]] == a + b[..k];
    }
  }

  lemma Concat(c: Machine, s: State, a: seq<Label>, t: State, b: seq<Label>)
    requires Runs(c, s, a) && After(c, s, a) == t && Runs(c, t, b)
    ensures Runs(c, s, a + b) && After(c, s, a + b) == After(c, t, b)
  {
    ConcatPrefix(c, s, a, t, b, |b|);
    assert b[..|b|] == b;
  }

  lemma LeadsConcat(c: Machine, s: State, a: seq<Label>, t: State, b: seq<Label>, u: State)
    requires Leads(c, s, a, t) && Leads(c, t, b, u)
    ensures Leads(c, s, a + b, u)
  {
    Concat(c, s, a, t, b);
  }

  lemma LeadsOne(c: Machine, s: State, l: Label)
    requires Enabled(c, s, l)
    ensures Leads(c, s, [l], Do(c, s, l))
  {
    assert [l][..0] == [];
    assert Runs(c, s, []) && After(c, s, []) == s;
  }

  // ------------------------------------------------ building blocks

  /** A BMC that answers nothing. */
  ghost predicate Dead(net: Net) {
    forall r :: net.fails(r)
  }

  /** A BMC that answers everything and takes every POST. */
  ghost predicate Willing(net: Net) {
    (forall r :: !net.fails(r)) && Accepts(net)
  }

  /** The scan is idle and all spawned goroutines are subscribers of the listed generations. */
  predicate Stage(t: State, id: string, current: map<string, nat>, cells: seq<Cells>, subscribers: map<nat, Subscriber>, m: seq<Member>) {
    && !t.scanning && t.todo == {} && t.sending == Nothing && t.pending == [] && t.verify == [] && t.verifiers == map[]
    && t.current == current && t.cells == cells && t.subscribers == subscribers && BmcOf(t, id) == m
  }

  /** One scan that queues an endpoint, up to the start of its goroutine. */
  function Launch(id: string): seq<Label> {
    [ScanStart({id}), Visit(id)] + [Send, ScanEnd, SpawnSubscriber]
  }

  lemma LaunchVisits(c: Machine, t: State, id: string)
    requires !t.scanning && t.sending == Nothing && !c.skips(id)
    requires id in t.current ==> t.current[id] < |t.cells| && t.cells[t.current[id]].status == ERROR
    ensures Leads(c, t, [ScanStart({id}), Visit(id)], NewGeneration(Do(c, t, ScanStart({id})), id))
  {
    LeadsOne(c, t, ScanStart({id}));
    var u := Do(c, t, ScanStart({id}));
    LeadsExtend(c, t, [ScanStart({id})], u, Visit(id));
    assert [ScanStart({id})] + [Visit(id)] == [ScanStart({id}), Visit(id)];
  }

  lemma LaunchSends(c: Machine, t: State, g: nat)
    requires t.scanning && t.todo == {} && t.sending == ToPending(g) && t.pending == [] && g !in t.subscribers
    ensures Leads(c, t, [Send, ScanEnd, SpawnSubscriber],
                  t.(sending := Nothing, scanning := false, subscribers := t.subscribers[g := Pruning]))
  {
    LeadsOne(c, t, Send);
    var u := Do(c, t, Send);
    LeadsExtend(c, t, [Send], u, ScanEnd);
    var w := Do(c, u, ScanEnd);
    assert w.pending == [g];
    LeadsExtend(c, t, [Send] + [ScanEnd], w, SpawnSubscriber);
    assert [Send] + [ScanEnd] + [SpawnSubscriber] == [Send, ScanEnd, SpawnSubscriber];
    assert [g][1..] == [];
  }

  lemma Launched(c: Machine, t: State, id: string, current: map<string, nat>, cells: seq<Cells>, subscribers: map<nat, Subscriber>, m: seq<Member>)
    returns (u: State)
    requires Stage(t, id, current, cells, subscribers, m) && !c.skips(id) && |cells| !in subscribers
    requires id in current ==> current[id] < |cells| && cells[current[id]].status == ERROR
    ensures Leads(c, t, Launch(id), u)
    ensures Stage(u, id, current[id := |cells|], cells + [Cells(id, PENDING, [])], subscribers[|cells| := Pruning], m)
    ensures u.scans == t.scans + 1
  {
    LaunchVisits(c, t, id);
    var w := NewGeneration(Do(c, t, ScanStart({id})), id);
    assert {id} - {id} == {};
    LaunchSends(c, w, |cells|);
    u := w.(sending := Nothing, scanning := false, subscribers := w.subscribers[|cells| := Pruning]);
    LeadsConcat(c, t, [ScanStart({id}), Visit(id)], w, [Send, ScanEnd, SpawnSubscriber], u);
  }

  /** Pruning that cannot even list the subscriptions changes nothing. */
  lemma PrunedDead(c: Machine, t: State, id: string, g: nat, net: Net, current: map<string, nat>, cells: seq<Cells>, subscribers: map<nat, Subscriber>, m: seq<Member>)
    returns (u: State)
    requires Stage(t, id, current, cells, subscribers, m) && Dead(net)
    requires g < |cells| && cells[g].id == id && g in subscribers && subscribers[g] == Pruning
    ensures Leads(c, t, [RunPrune(g, net)], u) && u.scans == t.scans
    ensures Stage(u, id, current, cells, subscribers[g := Subscribing(Groups(c.site))], m)
  {
    LeadsOne(c, t, RunPrune(g, net));
    u := Do(c, t, RunPrune(g, net));
  }

  /** A check that fails writes ERROR and moves on. */
  lemma CheckedDead(c: Machine, t: State, id: string, g: nat, net: Net, current: map<string, nat>, cells: seq<Cells>, subscribers: map<nat, Subscriber>, m: seq<Member>)
    returns (u: State)
    requires Stage(t, id, current, cells, subscribers, m) && Dead(net)
    requires g < |cells| && cells[g].id == id && g in subscribers && subscribers[g].Subscribing? && subscribers[g].todo != []
    ensures Leads(c, t, [RunCheck(g, net)], u) && u.scans == t.scans
    ensures Stage(u, id, current, cells[g := cells[g].(status := ERROR)], subscribers[g := Subscribing(subscribers[g].todo[1..])], m)
  {
    LeadsOne(c, t, RunCheck(g, net));
    u := HandleCheck(c, t, g, net);
    assert Checked(c, t, g, net) == Written(m, Some(ERROR), false);
  }

  /** A check that lists no subscriptions at all calls for a POST. */
  lemma CheckedEmpty(c: Machine, t: State, id: string, g: nat, net: Net, current: map<string, nat>, cells: seq<Cells>, subscribers: map<nat, Subscriber>)
    returns (u: State)
    requires Stage(t, id, current, cells, subscribers, []) && Willing(net)
    requires g < |cells| && cells[g].id == id && g in subscribers && subscribers[g].Subscribing? && subscribers[g].todo != []
    ensures Leads(c, t, [RunCheck(g, net)], u) && u.scans == t.scans
    ensures Stage(u, id, current, cells, subscribers[g := Posting(subscribers[g].todo)], [])
  {
    LeadsOne(c, t, RunCheck(g, net));
    u := HandleCheck(c, t, g, net);
    assert Oids([]) == [];
    assert Checked(c, t, g, net) == Written([], None, false);
    assert cells[g := cells[g]] == cells;
  }

  /** A POST that is taken records its group. */
  lemma PostedWilling(c: Machine, t: State, id: string, g: nat, net: Net, current: map<string, nat>, cells: seq<Cells>, subscribers: map<nat, Subscriber>, m: seq<Member>)
    returns (u: State)
    requires Stage(t, id, current, cells, subscribers, m) && Willing(net)
    requires g < |cells| && cells[g].id == id && g in subscribers && subscribers[g].Posting? && subscribers[g].todo != []
    ensures Leads(c, t, [RunPost(g, net)], u) && u.scans == t.scans
    ensures var gr := subscribers[g].todo[0];
            Stage(u, id, current, cells[g := cells[g].(prefixes := AppendUnique(gr, cells[g].prefixes))],
                  subscribers[g := Subscribing(subscribers[g].todo[1..])], Post(c.site, id, gr, net, m))
  {
    LeadsOne(c, t, RunPost(g, net));
    u := HandlePost(c, t, g, net);
  }

  lemma Finished(c: Machine, t: State, id: string, g: nat, current: map<string, nat>, cells: seq<Cells>, subscribers: map<nat, Subscriber>, m: seq<Member>)
    returns (u: State)
    requires Stage(t, id, current, cells, subscribers, m)
    requires g < |cells| && g in subscribers && subscribers[g] == Subscribing([])
    ensures Leads(c, t, [Finish(g)], u) && u.scans == t.scans
    ensures Stage(u, id, current, cells[g := cells[g].(status := COMPLETE)], subscribers - {g}, m)
  {
    LeadsOne(c, t, Finish(g));
    u := Do(c, t, Finish(g));
  }

  /** A pass whose first check fails, up to the second group. */
  function BadStart(id: string, g: nat, dead: Net): seq<Label> {
    Launch(id) + ([RunPrune(g, dead)] + [RunCheck(g, dead)])
  }

  lemma DeadCheckLeads(c: Machine, t: State, id: string, g: nat, dead: Net, current: map<string, nat>, cells: seq<Cells>, subscribers: map<nat, Subscriber>, m: seq<Member>)
    returns (u: State)
    requires Stage(t, id, current, cells, subscribers, m) && Dead(dead)
    requires g < |cells| && cells[g].id == id && g in subscribers && subscribers[g] == Pruning
    ensures Leads(c, t, [RunPrune(g, dead)] + [RunCheck(g, dead)], u)
    ensures Stage(u, id, current, cells[g := cells[g].(status := ERROR)], subscribers[g := Subscribing(Groups(c.site)[1..])], m)
  {
    var t1 := PrunedDead(c, t, id, g, dead, current, cells, subscribers, m);
    u := CheckedDead(c, t1, id, g, dead, current, cells, subscribers[g := Subscribing(Groups(c.site))], m);
    LeadsConcat(c, t, [RunPrune(g, dead)], t1, [RunCheck(g, dead)], u);
    assert subscribers[g := Subscribing(Groups(c.site))][g := Subscribing(Groups(c.site)[1..])] ==
           subscribers[g := Subscribing(Groups(c.site)[1..])];
  }

  lemma BadStartLeads(c: Machine, t: State, id: string, dead: Net, current: map<string, nat>, cells: seq<Cells>, subscribers: map<nat, Subscriber>, m: seq<Member>)
    returns (u: State)
    requires Stage(t, id, current, cells, subscribers, m) && !c.skips(id) && |cells| !in subscribers && Dead(dead)
    requires id in current ==> current[id] < |cells| && cells[current[id]].status == ERROR
    ensures Leads(c, t, BadStart(id, |cells|, dead), u)
    ensures Stage(u, id, current[id := |cells|], cells + [Cells(id, ERROR, [])],
                  subscribers[|cells| := Subscribing(Groups(c.site)[1..])], m)
  {
    var g, queued := |cells|, cells + [Cells(id, PENDING, [])];
    var t1 := Launched(c, t, id, current, cells, subscribers, m);
    u := DeadCheckLeads(c, t1, id, g, dead, current[id := g], queued, subscribers[g := Pruning], m);
    LeadsConcat(c, t, Launch(id), t1, [RunPrune(g, dead)] + [RunCheck(g, dead)], u);
    assert queued[g := queued[g].(status := ERROR)] == cells + [Cells(id, ERROR, [])];
    assert subscribers[g := Pruning][g := Subscribing(Groups(c.site)[1..])] == subscribers[g := Subscribing(Groups(c.site)[1..])];
  }
}
