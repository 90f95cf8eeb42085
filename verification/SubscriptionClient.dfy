/** The loops of cmd/hmcollector/rf_subscriptions.go in their own imperative form, each proved
    against the functions of `Subscriptions` and `SubscribePass`. */
module SubscriptionClient {
  import opened Basics
  import opened Subscriptions
  import opened SubscriptionFacts
  import opened PrefixGroups
  import opened SubscribePass

  /** The BMC as the client sees it: a list of subscriptions behind requests that may fail. */
  class Bmc {
    var members: seq<Member>

    method List(net: Net) returns (r: Option<seq<string>>)
      ensures r == if net.fails(ListSubscriptions) then None else Some(Oids(members))
    {
      r := if net.fails(ListSubscriptions) then None else Some(Oids(members));
    }

    method Get(net: Net, oid: string) returns (r: Option<Subscription>)
      ensures r == Fetch(net, members, oid)
    {
      r := None;
      if !net.fails(GetSubscription(oid)) {
        ghost var all := members;
        var k := 0;
        while k < |members|
          invariant 0 <= k <= |members| && members == all
          invariant Lookup(members[k..], oid) == Lookup(members, oid)
        {
          if members[k].oid == oid {
            return Some(members[k].sub);
          }
          assert members[k..][1..] == members[k + 1..];
          k := k + 1;
        }
      }
    }

    method Delete(net: Net, oid: string) returns (ok: bool)
      modifies this
      ensures ok == !net.fails(DeleteSubscription(oid))
      ensures members == if ok then Remove(old(members), oid) else old(members)
    {
      ok := !net.fails(DeleteSubscription(oid));
      if ok {
        members := Remove(members, oid);
      }
    }

    method Patch(net: Net, oid: string, context: string) returns (ok: bool)
      modifies this
      ensures ok == !net.fails(PatchContext(oid))
      ensures members == if ok then SetContext(old(members), oid, context) else old(members)
    {
      ok := !net.fails(PatchContext(oid));
      if ok {
        members := SetContext(members, oid, context);
      }
    }

    /** The BMC answers the POST of a subscription. */
    method Answer(c: Site, id: string, g: Group, net: Net) returns (status: Option<int>)
      modifies this
      ensures status == if net.fails(Request.PostSubscription) then None else Some(net.status)
      ensures members == Post(c, id, g, net, old(members))
    {
      status := None;
      if !net.fails(Request.PostSubscription) {
        status := Some(net.status);
      }
      members := Post(c, id, g, net, members);
    }

    /** `postRFSubscription`: the status test says whether the BMC now holds one more subscription for the
        group, under our name; a failed request and a refusal are both reported without an error. */
    method PostSubscription(c: Site, id: string, g: Group, net: Net) returns (subscribed: bool)
      modifies this
      ensures members == Post(c, id, g, net, old(members))
      ensures subscribed <==> !net.fails(Request.PostSubscription) && net.status in {200, 201, 204}
      ensures if subscribed then old(members) < members && InPlace(c, id, g, members) else members == old(members)
      ensures subscribed ==> members[|members| - 1].sub == Subscription(id, c.destination(id), net.eventTypes, "Redfish", g.Names())
      ensures Count(c, id, g, members) == Count(c, id, g, old(members)) + (if subscribed then 1 else 0)
    {
      PostCount(c, id, g, g, net, members);
      if Accepts(net) {
        PostPutsInPlace(c, id, g, net, members);
      }
      var status := Answer(c, id, g, net);
      if status.None? {
        subscribed := false;
      } else if status.value == 400 && |g.Names()| > 0 {
        subscribed := false;   // the endpoint does not support streaming telemetry
      } else if status.value != 201 && status.value != 204 && status.value != 200 {
        subscribed := false;
      } else {
        subscribed := true;
      }
    }
  }

  /** The status and prefix cells behind an RFSub. */
  class Record {
    var status: Status
    var prefixGroups: seq<Group>

    constructor ()
      ensures status == PENDING && prefixGroups == []
    {
      status, prefixGroups := PENDING, [];
    }
  }

  method PrefixesMatch(g: Group, present: seq<string>) returns (matches: bool)
    ensures matches == MatchesGroup(g, present)
  {
    matches := false;
    if |g.Names()| == 0 && |present| == 0 {
      matches := true;
    } else if g.Prefixes? {
      var hasAll := true;
      var i := 0;
      while i < |g.names| && hasAll
        invariant 0 <= i <= |g.names|
        invariant hasAll ==> forall n | n in g.names[..i] :: n in present
        invariant !hasAll ==> exists n | n in g.names :: n !in present
      {
        hasAll := Contains(g.names[i], present);
        i := i + 1;
      }
      if hasAll {
        assert g.names[..i] == g.names;
        matches := true;
      }
    }
  }

  method PruneOld(bmc: Bmc, c: Site, id: string, net: Net)
    modifies bmc
    ensures bmc.members == Prune(c, id, net, old(bmc.members))
  {
    if c.prune {
      var list := bmc.List(net);
      if list.Some? {
        var oids := list.value;
        var k := 0;
        while k < |oids|
          invariant 0 <= k <= |oids|
          invariant PruneFrom(c, id, net, oids[k..], bmc.members) == PruneFrom(c, id, net, oids, old(bmc.members))
        {
          assert oids[k..][1..] == oids[k + 1..];
          var got := bmc.Get(net, oids[k]);
          if got.Some? && ForWrongXname(c, id, got.value) {
            var _ := bmc.Delete(net, oids[k]);
          }
          k := k + 1;
        }
      }
    }
  }

  /** `fixSubscriptionMismatch`: PATCH the context, else DELETE. */
  method FixMismatch(bmc: Bmc, c: Site, id: string, net: Net, oid: string) returns (ok: bool, ghost stuck: bool)
    modifies bmc
    ensures FixContext(c, id, net, oid, old(bmc.members)) == Scan(if ok then Present else Absent, bmc.members, stuck)
  {
    stuck := false;
    ok := bmc.Patch(net, oid, id);
    if !ok {
      var deleted := bmc.Delete(net, oid);
      stuck := !deleted;
    }
  }

  /** `isDupRFSubscription`. */
  method CheckDuplicate(bmc: Bmc, c: Site, id: string, g: Group, net: Net) returns (check: Check, ghost stuck: bool)
    modifies bmc
    ensures IsDup(c, id, g, net, old(bmc.members)) == Scan(check, bmc.members, stuck)
  {
    stuck := false;
    var list := bmc.List(net);
    if list.None? {
      return CheckError, false;
    }
    var oids := list.value;
    var k := 0;
    while k < |oids|
      invariant 0 <= k <= |oids|
      invariant ScanFrom(c, id, g, net, oids[k..], bmc.members) == ScanFrom(c, id, g, net, oids, old(bmc.members))
    {
      assert oids[k..][1..] == oids[k + 1..];
      var got := bmc.Get(net, oids[k]);
      if got.None? {
        return CheckError, false;
      }
      var sub := got.value;
      if sub.destination == c.destination(id) {
        var matches := PrefixesMatch(g, sub.registryPrefixes);
        if matches {
          if sub.context != id {
            var ok;
            ok, stuck := FixMismatch(bmc, c, id, net, oids[k]);
            return if ok then Present else Absent, stuck;
          }
          return Present, false;
        }
      } else if c.prune && ForWrongXname(c, id, sub) {
        var _ := bmc.Delete(net, oids[k]);
      }
      k := k + 1;
    }
    check := Absent;
  }

  /** One iteration of the group loop of `rfSubscribe`. */
  method SubscribeOneGroup(bmc: Bmc, rec: Record, c: Site, id: string, g: Group, net: Net)
    modifies bmc, rec
    ensures var it := SubscribeGroup(c, id, g, net, old(bmc.members));
            && bmc.members == it.members
            && rec.status == (if it.status.Some? then it.status.value else old(rec.status))
            && rec.prefixGroups == (if it.record then AppendUnique(g, old(rec.prefixGroups)) else old(rec.prefixGroups))
  {
    var check, _ := CheckDuplicate(bmc, c, id, g, net);
    if check == CheckError {
      rec.status := ERROR;
    } else if check == Present {
      rec.status := COMPLETE;
      rec.prefixGroups := AppendUniqueRegPrefix(g, rec.prefixGroups);
    } else if net.fails(GetEventTypes) {
      rec.status := ERROR;
    } else {
      var subscribed := bmc.PostSubscription(c, id, g, net);
      if subscribed {
        rec.prefixGroups := AppendUniqueRegPrefix(g, rec.prefixGroups);
      }
    }
  }

  /** The goroutine body of `rfSubscribe`: whatever happened, the last write is COMPLETE. */
  method RunPass(bmc: Bmc, rec: Record, c: Site, id: string, pruneNet: Net, nets: seq<Net>)
    requires |nets| == |Groups(c)| && rec.prefixGroups == []
    modifies bmc, rec
    ensures Pass(c, id, pruneNet, nets, old(bmc.members)) == Outcome(bmc.members, rec.prefixGroups)
    ensures rec.status == COMPLETE
  {
    var gs := Groups(c);
    PruneOld(bmc, c, id, pruneNet);
    ghost var start := Outcome(bmc.members, []);
    var k := 0;
    while k < |gs|
      invariant 0 <= k <= |gs| && gs == Groups(c)
      invariant GroupsFrom(c, id, gs[k..], nets[k..], Outcome(bmc.members, rec.prefixGroups)) ==
                GroupsFrom(c, id, gs, nets, start)
    {
      assert gs[k..][1..] == gs[k + 1..] && nets[k..][1..] == nets[k + 1..];
      SubscribeOneGroup(bmc, rec, c, id, gs[k], nets[k]);
      k := k + 1;
    }
    rec.status := COMPLETE;
  }

  /** The goroutine body of `rfVerifySub`: ERROR is written when some recorded group is not found. */
  method RunVerify(bmc: Bmc, rec: Record, c: Site, id: string, nets: seq<Net>)
    requires |nets| == |rec.prefixGroups|
    modifies bmc, rec
    ensures rec.prefixGroups == old(rec.prefixGroups)
    ensures var v := VerifyFrom(c, id, old(rec.prefixGroups), nets, old(bmc.members));
            && bmc.members == v.0
            && rec.status == (if v.1 then ERROR else old(rec.status))
    ensures AllReliable(nets) && DistinctOids(old(bmc.members)) && NoneWrong(c, id, old(bmc.members)) ==>
              rec.status == (if exists g | g in rec.prefixGroups :: Missing(c, id, g, old(bmc.members)) then ERROR else old(rec.status))
    ensures DistinctOids(old(bmc.members)) && old(rec.status) != ERROR && rec.status != ERROR ==>
              forall g | g in rec.prefixGroups :: InPlace(c, id, g, bmc.members)
  {
    if DistinctOids(bmc.members) {
      VerifyIsSound(c, id, rec.prefixGroups, nets, bmc.members);
      if AllReliable(nets) && NoneWrong(c, id, bmc.members) {
        VerifyIff(c, id, rec.prefixGroups, nets, bmc.members);
      }
    }
    var gs := rec.prefixGroups;
    ghost var all := VerifyFrom(c, id, gs, nets, bmc.members);
    ghost var missed := false;
    var k := 0;
    while k < |gs|
      invariant 0 <= k <= |gs| && rec.prefixGroups == gs == old(rec.prefixGroups)
      invariant var v := VerifyFrom(c, id, gs[k..], nets[k..], bmc.members);
                v.0 == all.0 && all.1 == (missed || v.1)
      invariant rec.status == if missed then ERROR else old(rec.status)
    {
      assert gs[k..][1..] == gs[k + 1..] && nets[k..][1..] == nets[k + 1..];
      var check, _ := CheckDuplicate(bmc, c, id, gs[k], nets[k]);
      if check != Present {
        rec.status := ERROR;
        missed := true;
      }
      k := k + 1;
    }
  }
}
