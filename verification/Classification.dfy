/** Classification of endpoints for polling (cmd/hmcollector/polling.go, `monitorPollingEndpoints`):
    rounds over a snapshot of HSMEndpoints, one goroutine per unknown endpoint, appends in any order. */
module Classification {
  import opened Basics

  /** What probing an endpoint leads to; a reply that does not decode ends its goroutine early. */
  datatype Verdict = Polled | NotPolled | Undecodable

  datatype Probe = Probe(id: string, verdict: Verdict)

  datatype State = State(
    hsm: set<string>,          // keys of HSMEndpoints
    running: bool,             // a round is under way
    todo: set<string>,         // snapshot entries not yet looked at
    inFlight: set<string>,     // endpoints with a goroutine
    endpoints: seq<string>,
    nonPolled: seq<string>,
    probes: seq<Probe>)        // finished goroutines, in order

  datatype Label = Discover(id: string) | RoundStart | Look(id: string) | Done(id: string, verdict: Verdict) | RoundEnd

  predicate Enabled(s: State, l: Label) {
    match l
    case Discover(_) => true
    case RoundStart => !s.running
    case Look(id) => s.running && id in s.todo
    case Done(id, _) => id in s.inFlight
    case RoundEnd => s.running && s.todo == {} && s.inFlight == {}
  }

  function Do(s: State, l: Label): State
    requires Enabled(s, l)
  {
    match l
    case Discover(id) => s.(hsm := s.hsm + {id})
    case RoundStart => s.(running := true, todo := s.hsm)
    case Look(id) =>
      var s' := s.(todo := s.todo - {id});
      if id in s.endpoints || id in s.nonPolled then s' else s'.(inFlight := s.inFlight + {id})
    case Done(id, v) =>
      var s' := s.(inFlight := s.inFlight - {id}, probes := s.probes + [Probe(id, v)]);
      (match v
       case Polled => s'.(endpoints := s.endpoints + [id])
       case NotPolled => s'.(nonPolled := s.nonPolled + [id])
       case Undecodable => s')
    case RoundEnd => s.(running := false)
  }

  predicate Runs(s: State, ls: seq<Label>)
    decreases |ls|, 0
  {
    ls == [] || (Runs(s, ls[..|ls| - 1]) && Enabled(After(s, ls[..|ls| - 1]), ls[|ls| - 1]))
  }

  function After(s: State, ls: seq<Label>): State
    requires Runs(s, ls)
    decreases |ls|, 1
  {
    if ls == [] then s else Do(After(s, ls[..|ls| - 1]), ls[|ls| - 1])
  }

  predicate Classified(s: State, id: string) {
    id in s.endpoints || id in s.nonPolled
  }

  /** No endpoint is classified twice. */
  predicate OnceOnly(s: State) {
    && Distinct(s.endpoints) && Distinct(s.nonPolled)
    && (forall id | id in s.endpoints :: id !in s.nonPolled)
  }

  /** A probe is repeated only after a reply that did not decode. */
  predicate RetriesOnlyUndecodable(s: State) {
    forall i, j | 0 <= i < j < |s.probes| && s.probes[i].id == s.probes[j].id :: s.probes[i].verdict == Undecodable
  }

  ghost predicate Inv(s: State) {
    && OnceOnly(s)
    && RetriesOnlyUndecodable(s)
    && (forall id | Classified(s, id) :: id in s.hsm && id !in s.inFlight)
    && s.inFlight <= s.hsm && s.todo <= s.hsm && s.inFlight !! s.todo
    && (!s.running ==> s.inFlight == {} && s.todo == {})
    && (forall k | 0 <= k < |s.probes| && s.probes[k].verdict != Undecodable :: Classified(s, s.probes[k].id))
  }

  lemma InvStep(s: State, l: Label)
    requires Inv(s) && Enabled(s, l)
    ensures Inv(Do(s, l))
  {
    if l.Done? {
      DoneStep(s, l.id, l.verdict);
    }
  }

  lemma DoneStep(s: State, id: string, v: Verdict)
    requires Inv(s) && id in s.inFlight
    ensures Inv(Do(s, Done(id, v)))
  {
    var s' := Do(s, Done(id, v));
    assert !Classified(s, id);
    assert forall x :: Classified(s', x) <==> Classified(s, x) || (x == id && v != Undecodable);
    forall i, j | 0 <= i < j < |s'.probes| && s'.probes[i].id == s'.probes[j].id
      ensures s'.probes[i].verdict == Undecodable
    {
      assert s'.probes[i] == s.probes[i];
      if j < |s.probes| {
        assert s'.probes[j] == s.probes[j];
      }
    }
  }

  lemma {:induction false} InvHolds(s: State, ls: seq<Label>)
    requires Inv(s) && Runs(s, ls)
    ensures Inv(After(s, ls))
    ensures s.endpoints <= After(s, ls).endpoints && s.nonPolled <= After(s, ls).nonPolled
    decreases |ls|
  {
    if ls == [] {
    } else {
      InvHolds(s, ls[..|ls| - 1]);
      InvStep(After(s, ls[..|ls| - 1]), ls[|ls| - 1]);
    }
  }

  /** In every run and every order of goroutine completions: no ID twice across the two lists, both
      lists only grow and stay within HSMEndpoints, and only undecodable replies are probed again. */
  lemma ClassifiedOnce(hsm: set<string>, before: seq<Label>, more: seq<Label>)
    requires var s := State(hsm, false, {}, {}, [], [], []);
             Runs(s, before) && Runs(After(s, before), more)
    ensures var s := State(hsm, false, {}, {}, [], [], []);
            var t, u := After(s, before), After(After(s, before), more);
            && OnceOnly(u) && RetriesOnlyUndecodable(u)
            && (forall id | Classified(u, id) :: id in u.hsm)
            && t.endpoints <= u.endpoints && t.nonPolled <= u.nonPolled
  {
    var s := State(hsm, false, {}, {}, [], [], []);
    InvHolds(s, before);
    InvHolds(After(s, before), more);
  }

  // ------------------------------------------------ the verdict decides, and every round is complete

  /** The endpoints whose goroutine ended with verdict `v`, in order of completion. */
  function Finished(ls: seq<Label>, v: Verdict): seq<string> {
    if ls == [] then []
    else
      var l := ls[|ls| - 1];
      Finished(ls[..|ls| - 1], v) + (if l.Done? && l.verdict == v then [l.id] else [])
  }

  /** The endpoints that appear in HSM during a run. */
  function Discovered(ls: seq<Label>): set<string> {
    set k | 0 <= k < |ls| && ls[k].Discover? :: ls[k].id
  }

  lemma DiscoveredStep(ls: seq<Label>)
    requires ls != []
    ensures var l := ls[|ls| - 1];
            Discovered(ls) == Discovered(ls[..|ls| - 1]) + (if l.Discover? then {l.id} else {})
  {
    var init := ls[..|ls| - 1];
    forall id | id in Discovered(ls) && !(ls[|ls| - 1].Discover? && ls[|ls| - 1].id == id) ensures id in Discovered(init) {
      var k :| 0 <= k < |ls| && ls[k].Discover? && ls[k].id == id;
      assert init[k] == ls[k];
    }
    forall id | id in Discovered(init) ensures id in Discovered(ls) {
      var k :| 0 <= k < |init| && init[k].Discover? && init[k].id == id;
      assert ls[k] == init[k];
    }
  }

  /** In every run the polled list is exactly the endpoints whose goroutine recognised them, in order of
      completion, and the ignore list exactly those it did not recognise; HSMEndpoints holds what it
      held and what was discovered. */
  lemma {:induction false} VerdictDecides(hsm: set<string>, ls: seq<Label>)
    requires Runs(State(hsm, false, {}, {}, [], [], []), ls)
    ensures var t := After(State(hsm, false, {}, {}, [], [], []), ls);
            && t.endpoints == Finished(ls, Polled) && t.nonPolled == Finished(ls, NotPolled)
            && t.hsm == hsm + Discovered(ls)
    decreases |ls|
  {
    if ls == [] {
    } else {
      VerdictDecides(hsm, ls[..|ls| - 1]);
      DiscoveredStep(ls);
    }
  }

  /** Steps within one round. */
  predicate InRound(ls: seq<Label>) {
    forall k | 0 <= k < |ls| :: !ls[k].RoundStart? && !ls[k].RoundEnd?
  }

  predicate ProbedIn(ls: seq<Label>, id: string) {
    exists k | 0 <= k < |ls| :: ls[k].Done? && ls[k].id == id
  }

  lemma ProbedStep(ls: seq<Label>, id: string)
    requires ls != []
    ensures var l := ls[|ls| - 1]; ProbedIn(ls, id) <==> ProbedIn(ls[..|ls| - 1], id) || (l.Done? && l.id == id)
  {
    var init := ls[..|ls| - 1];
    if ProbedIn(init, id) {
      var k :| 0 <= k < |init| && init[k].Done? && init[k].id == id;
      assert ls[k] == init[k];
    }
    if ProbedIn(ls, id) {
      var k :| 0 <= k < |ls| && ls[k].Done? && ls[k].id == id;
      assert k < |init| ==> init[k] == ls[k];
    }
  }

  /** Where an endpoint of the snapshot stands. */
  ghost predicate Standing(s: State, t: State, ls: seq<Label>, id: string) {
    && (if Classified(s, id) then id !in t.inFlight && !ProbedIn(ls, id)
        else id in t.todo || id in t.inFlight || ProbedIn(ls, id))
    && (Classified(s, id) ==> Classified(t, id))
    && (Classified(t, id) ==> Classified(s, id) || ProbedIn(ls, id))
    && (ProbedIn(ls, id) && Done(id, Undecodable) !in ls ==> Classified(t, id))
  }

  lemma StandingStep(s: State, t: State, ls: seq<Label>, l: Label, id: string)
    requires Enabled(t, l) && !l.RoundStart? && !l.RoundEnd? && Standing(s, t, ls, id)
    ensures Standing(s, Do(t, l), ls + [l], id)
  {
    ProbedStep(ls + [l], id);
    assert (ls + [l])[..|ls|] == ls;
    assert Done(id, Undecodable) in ls ==> Done(id, Undecodable) in ls + [l];
    if l.Done? && l.id == id {
      assert l in ls + [l];
    }
  }

  lemma {:induction false} RoundProgress(s: State, ls: seq<Label>, id: string)
    requires Inv(s) && !s.running && id in s.hsm && InRound(ls) && Runs(Do(s, RoundStart), ls)
    ensures Standing(s, After(Do(s, RoundStart), ls), ls, id)
    decreases |ls|
  {
    if ls == [] {
    } else {
      var last := |ls| - 1;
      RoundProgress(s, ls[..last], id);
      StandingStep(s, After(Do(s, RoundStart), ls[..last]), ls[..last], ls[last], id);
      assert ls[..last] + [ls[last]] == ls;
    }
  }

  /** A round that can end has probed exactly the endpoints of its snapshot that were not classified, and has
      classified each of them unless its reply did not decode. */
  lemma RoundIsComplete(s: State, ls: seq<Label>, id: string)
    requires Inv(s) && !s.running && id in s.hsm && InRound(ls) && Runs(Do(s, RoundStart), ls)
    requires Enabled(After(Do(s, RoundStart), ls), RoundEnd)
    ensures ProbedIn(ls, id) <==> !Classified(s, id)
    ensures Classified(After(Do(s, RoundStart), ls), id) || Done(id, Undecodable) in ls
  {
    RoundProgress(s, ls, id);
  }
}
