/** The duplicate check of one group, request by request: what it answers and what it leaves behind, whatever
    fails (cmd/hmcollector/rf_subscriptions.go, `isDupRFSubscription`). */
module DuplicateCheck {
  import opened Basics
  import opened Subscriptions
  import opened SubscriptionFacts
  import opened MovedHardware

  /** The check ends at a member it cannot read, or at a match for the group. */
  predicate StopsAt(c: Site, id: string, g: Group, net: Net, x: Member) {
    net.fails(GetSubscription(x.oid)) || (x.sub.destination == c.destination(id) && MatchesGroup(g, x.sub.registryPrefixes))
  }

  /** Position `p` is the first at which the check ends, or the length if there is none. */
  predicate FirstStop(c: Site, id: string, g: Group, net: Net, m: seq<Member>, p: nat) {
    && p <= |m| && (p < |m| ==> StopsAt(c, id, g, net, m[p]))
    && forall i | 0 <= i < p :: !StopsAt(c, id, g, net, m[i])
  }

  function StopPosition(c: Site, id: string, g: Group, net: Net, m: seq<Member>): (p: nat)
    ensures FirstStop(c, id, g, net, m, p)
  {
    if m == [] || StopsAt(c, id, g, net, m[0]) then 0 else 1 + StopPosition(c, id, g, net, m[1..])
  }

  /** The answer, from the member at which the check ends. */
  function Answer(id: string, net: Net, x: Member): Check {
    if net.fails(GetSubscription(x.oid)) then CheckError
    else if x.sub.context == id || !net.fails(PatchContext(x.oid)) then Present
    else Absent
  }

  /** `x` is what remains of the member `y` at which the check ends: a wrong context is patched, and the member
      deleted if that fails. */
  predicate Remains(id: string, net: Net, y: Member, x: Member) {
    if net.fails(GetSubscription(y.oid)) || y.sub.context == id then x == y
    else if !net.fails(PatchContext(y.oid)) then x == y.(sub := y.sub.(context := id))
    else net.fails(DeleteSubscription(y.oid)) && x == y
  }

  /** A member the check passes is deleted if it points elsewhere and belongs to moved hardware. */
  ghost predicate DeletedOnTheWay(c: Site, id: string, net: Net, x: Member) {
    x.sub.destination != c.destination(id) && Moved(c, id, x.sub) && !net.fails(DeleteSubscription(x.oid))
  }

  /** `x` is left by a check that ends at position `p`. */
  ghost predicate LeftBy(c: Site, id: string, net: Net, m: seq<Member>, p: nat, x: Member) {
    || (exists i | 0 <= i < |m| && i != p :: m[i] == x && (i < p ==> !DeletedOnTheWay(c, id, net, x)))
    || (p < |m| && Remains(id, net, m[p], x))
  }

  lemma {:induction false} WalkAnswers(c: Site, id: string, g: Group, net: Net, m: seq<Member>, p: nat)
    requires FirstStop(c, id, g, net, m, p)
    ensures Walk(c, id, g, net, m).check == if p == |m| then Absent else Answer(id, net, m[p])
    ensures Walk(c, id, g, net, m).stuck <==>
            p < |m| && Answer(id, net, m[p]) == Absent && net.fails(DeleteSubscription(m[p].oid))
    decreases |m|
  {
    if p == 0 {
    } else {
      assert forall i | 0 <= i < |m[1..]| :: m[1..][i] == m[i + 1];
      WalkAnswers(c, id, g, net, m[1..], p - 1);
    }
  }

  lemma LeftByTail(c: Site, id: string, net: Net, m: seq<Member>, p: nat, x: Member)
    requires m != [] && 0 < p <= |m|
    ensures LeftBy(c, id, net, m, p, x) <==>
            (x == m[0] && !DeletedOnTheWay(c, id, net, x)) || LeftBy(c, id, net, m[1..], p - 1, x)
  {
    var tail := m[1..];
    assert forall i | 0 <= i < |tail| :: tail[i] == m[i + 1];
    if i :| 0 <= i < |m| && i != p && m[i] == x && (i < p ==> !DeletedOnTheWay(c, id, net, x)) {
      if i > 0 {
        assert tail[i - 1] == x;
      }
    }
    if i :| 0 <= i < |tail| && i != p - 1 && tail[i] == x && (i < p - 1 ==> !DeletedOnTheWay(c, id, net, x)) {
      assert m[i + 1] == x;
    }
  }

  /** A check that ends at the first member. */
  lemma WalkLeavesAtOnce(c: Site, id: string, g: Group, net: Net, m: seq<Member>, x: Member)
    requires m != [] && StopsAt(c, id, g, net, m[0])
    ensures x in Walk(c, id, g, net, m).members <==> x in m[1..] || Remains(id, net, m[0], x)
    ensures LeftBy(c, id, net, m, 0, x) <==> x in m[1..] || Remains(id, net, m[0], x)
  {
    assert m == [m[0]] + m[1..];
    if x in m[1..] {
      var i :| 0 <= i < |m[1..]| && m[1..][i] == x;
      assert m[i + 1] == x;
    }
    if i :| 0 < i < |m| && m[i] == x {
      assert m[1..][i - 1] == x;
    }
  }

  lemma {:induction false} WalkLeaves(c: Site, id: string, g: Group, net: Net, m: seq<Member>, p: nat, x: Member)
    requires FirstStop(c, id, g, net, m, p)
    ensures x in Walk(c, id, g, net, m).members <==> LeftBy(c, id, net, m, p, x)
    decreases |m|
  {
    if m == [] {
    } else if p == 0 {
      WalkLeavesAtOnce(c, id, g, net, m, x);
    } else {
      assert forall i | 0 <= i < |m[1..]| :: m[1..][i] == m[i + 1];
      MovedIff(c, id, m[0].sub);
      WalkLeaves(c, id, g, net, m[1..], p - 1, x);
      LeftByTail(c, id, net, m, p, x);
    }
  }

  /** The answer of the check: an error if and only if the list or a member before the first match cannot be read;
      present if and only if the first match carries our name or can be patched; else absent, and stuck if
      the DELETE after the failed PATCH fails. */
  lemma CheckIff(c: Site, id: string, g: Group, net: Net, m: seq<Member>, p: nat)
    requires DistinctOids(m) && FirstStop(c, id, g, net, m, p)
    ensures var scan := IsDup(c, id, g, net, m);
            && scan.check == (if net.fails(ListSubscriptions) then CheckError else if p == |m| then Absent else Answer(id, net, m[p]))
            && (scan.stuck <==> !net.fails(ListSubscriptions) && p < |m| && Answer(id, net, m[p]) == Absent
                                && net.fails(DeleteSubscription(m[p].oid)))
  {
    LoopsAreWalks(c, id, g, net, m);
    WalkAnswers(c, id, g, net, m, p);
  }

  /** What it leaves: nothing changes when the list cannot be read; else members it passed are deleted if they
      belong to moved hardware, the member it ends at is kept, patched or deleted, and the rest is kept. */
  lemma CheckLeaves(c: Site, id: string, g: Group, net: Net, m: seq<Member>, p: nat, x: Member)
    requires DistinctOids(m) && FirstStop(c, id, g, net, m, p)
    ensures x in IsDup(c, id, g, net, m).members <==> if net.fails(ListSubscriptions) then x in m else LeftBy(c, id, net, m, p, x)
  {
    LoopsAreWalks(c, id, g, net, m);
    WalkLeaves(c, id, g, net, m, p, x);
  }

  /** What a group iteration writes in the middle of a pass: ERROR if the check or the event-type GET cannot be made,
      COMPLETE together with a record if the group is found, and a record without a status if it is created. */
  lemma HalvesWrite(c: Site, id: string, g: Group, net: Net, m: seq<Member>, p: nat)
    requires DistinctOids(m) && FirstStop(c, id, g, net, m, p)
    ensures var first, answer := CheckHalf(c, id, g, net, m), if p == |m| then Absent else Answer(id, net, m[p]);
            && (net.fails(ListSubscriptions) ==> first.status == Some(ERROR) && !first.record)
            && (!net.fails(ListSubscriptions) && answer == CheckError ==> first.status == Some(ERROR) && !first.record)
            && (!net.fails(ListSubscriptions) && answer == Present ==> first.status == Some(COMPLETE) && first.record)
            && (!net.fails(ListSubscriptions) && answer == Absent ==> first.status == None && !first.record)
    ensures var second := PostHalf(c, id, g, net, m);
            && (net.fails(GetEventTypes) ==> second == Written(m, Some(ERROR), false))
            && (!net.fails(GetEventTypes) ==> second.status == None && (second.record <==> !net.fails(PostSubscription) && net.status in {200, 201, 204}))
            && Count(c, id, g, second.members) == Count(c, id, g, m) + (if second.record then 1 else 0)
  {
    CheckIff(c, id, g, net, m, p);
    PostCount(c, id, g, g, net, m);
  }
}
