/** `appendUniqueRegPrefix` (cmd/hmcollector/rf_subscriptions.go): the list of registry
    prefix groups a subscription record remembers. */
module PrefixGroups {
  import opened Basics
  import opened Subscriptions

  /** The comparison the program makes: equal length and one-way containment. */
  predicate Alike(a: seq<string>, b: seq<string>) {
    |a| == |b| && forall e | e in a :: e in b
  }

  predicate Recorded(g: Group, pg: seq<Group>) {
    exists k | 0 <= k < |pg| :: Alike(g.Names(), pg[k].Names())
  }

  function AppendUnique(g: Group, pg: seq<Group>): seq<Group> {
    if Recorded(g, pg) then pg else pg + [g]
  }

  method Contains(e: string, b: seq<string>) returns (found: bool)
    ensures found == (e in b)
  {
    found := false;
    for j := 0 to |b|
      invariant !found && e !in b[..j]
    {
      if b[j] == e {
        return true;
      }
    }
  }

  method CompareGroups(a: seq<string>, b: seq<string>) returns (matches: bool)
    ensures matches == Alike(a, b)
  {
    matches := |a| == |b|;
    if matches {
      for i := 0 to |a|
        invariant matches
        invariant forall e | e in a[..i] :: e in b
      {
        var found := Contains(a[i], b);
        if !found {
          return false;
        }
      }
    }
  }

  method AppendUniqueRegPrefix(g: Group, pg: seq<Group>) returns (r: seq<Group>)
    ensures r == AppendUnique(g, pg)
  {
    for k := 0 to |pg|
      invariant forall j | 0 <= j < k :: !Alike(g.Names(), pg[j].Names())
    {
      var matches := CompareGroups(g.Names(), pg[k].Names());
      if matches {
        return pg;
      }
    }
    r := pg + [g];
  }

  // ------------------------------------------------ the comparison is set equality

  /** Pigeonhole: on duplicate-free lists the one-way test is exactly set equality. */
  lemma AlikeIsSetEquality(a: seq<string>, b: seq<string>)
    requires Distinct(a) && Distinct(b)
    ensures Alike(a, b) <==> Elements(a) == Elements(b)
  {
    DistinctSize(a);
    DistinctSize(b);
    if Alike(a, b) {
      SubsetSize(Elements(a), Elements(b));
    }
    if Elements(a) == Elements(b) {
      forall e | e in a ensures e in b {
        assert e in Elements(a);
      }
    }
  }

  /** With duplicates it is not even symmetric. */
  lemma AlikeIsNotSymmetric()
    ensures var a, b := ["a", "a"], ["a", "b"];
            Alike(a, b) && !Alike(b, a) && Elements(a) != Elements(b)
  {
    assert "b" in ["a", "b"] && "b" !in ["a", "a"];
    assert "b" in Elements(["a", "b"]);
  }

  /** A string longer than all of a list. */
  function Longer(a: seq<string>): (r: string)
    ensures forall e | e in a :: |e| < |r|
  {
    if a == [] then "x"
    else
      var r := Longer(a[1..]);
      if |a[0]| < |r| then r else a[0] + "x"
  }

  /** One duplicate is enough: replaced by something new it gives a list that compares equal to `a`. */
  lemma DuplicateDeceives(a: seq<string>, i: nat, j: nat)
    requires i < j < |a| && a[i] == a[j]
    ensures var b := a[j := Longer(a)]; |b| == |a| && Alike(a, b) && Elements(a) != Elements(b)
  {
    var b := a[j := Longer(a)];
    forall e | e in a ensures e in b {
      var k :| 0 <= k < |a| && a[k] == e;
      assert b[if k == j then i else k] == e;
    }
    assert b[j] == Longer(a) && Longer(a) !in a;
    assert Longer(a) in Elements(b) && Longer(a) !in Elements(a);
  }

  /** The exact condition: the comparison with `a` is set equality, for all lists of its length, if and only if `a`
      has no duplicates. */
  lemma AlikeIffDistinct(a: seq<string>)
    ensures (forall b: seq<string> | |b| == |a| :: Alike(a, b) <==> Elements(a) == Elements(b)) <==> Distinct(a)
  {
    if Distinct(a) {
      forall b: seq<string> | |b| == |a| ensures Alike(a, b) <==> Elements(a) == Elements(b) {
        DistinctSize(a);
        DistinctSize(b);
        if Alike(a, b) {
          SubsetSize(Elements(a), Elements(b));
          SubsetIsEqual(Elements(a), Elements(b));
        }
        if Elements(a) == Elements(b) {
          forall e | e in a ensures e in b {
            assert e in Elements(a);
          }
        }
      }
    } else {
      var i, j :| 0 <= i < j < |a| && a[i] == a[j];
      DuplicateDeceives(a, i, j);
    }
  }

  lemma SubsetIsEqual(a: set<string>, b: set<string>)
    requires a <= b && |a| >= |b|
    ensures a == b
  {
    SubsetSize(a, b);
  }

  /** Go's nil group matches subscriptions without prefixes only; an empty group, which the program never
      builds, would match them all. */
  lemma NilIsNotEmpty(present: seq<string>)
    ensures MatchesGroup(NilGroup, present) <==> present == []
    ensures MatchesGroup(Prefixes([]), present)
  {
  }

  /** The list a record keeps: pairwise different as sets, drawn from `base`. */
  predicate GoodList(base: seq<Group>, pg: seq<Group>) {
    && (forall g | g in pg :: g in base)
    && (forall i, j | 0 <= i < j < |pg| :: Elements(pg[i].Names()) != Elements(pg[j].Names()))
  }

  predicate DistinctGroups(base: seq<Group>) {
    forall g | g in base :: Distinct(g.Names())
  }

  lemma AppendKeepsGoodList(base: seq<Group>, pg: seq<Group>, g: Group)
    requires DistinctGroups(base) && GoodList(base, pg) && g in base
    ensures GoodList(base, AppendUnique(g, pg))
    ensures exists h :: h in AppendUnique(g, pg) && Elements(h.Names()) == Elements(g.Names())
  {
    forall k | 0 <= k < |pg|
      ensures Alike(g.Names(), pg[k].Names()) <==> Elements(g.Names()) == Elements(pg[k].Names())
    {
      assert pg[k] in base;
      AlikeIsSetEquality(g.Names(), pg[k].Names());
    }
    if Recorded(g, pg) {
      var k :| 0 <= k < |pg| && Alike(g.Names(), pg[k].Names());
      assert pg[k] in pg;
    } else {
      assert g in pg + [g];
    }
  }

  lemma SiteGroupsDistinct(c: Site)
    ensures DistinctGroups(Groups(c))
  {
  }

  /** A record never holds more than the two groups of a site. */
  lemma AtMostTwoGroups(c: Site, pg: seq<Group>)
    requires GoodList(Groups(c), pg)
    ensures |pg| <= |Groups(c)| <= 2
    ensures Distinct(pg)
  {
    assert Distinct(pg);
    DistinctSize(pg);
    DistinctSize(Groups(c));
    assert Elements(pg) <= Elements(Groups(c));
    SubsetSize(Elements(pg), Elements(Groups(c)));
  }
}
