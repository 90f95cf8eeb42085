/** Which subscriptions the pruner takes for those of moved hardware, and which it deletes
    (cmd/hmcollector/rf_subscriptions.go, `isSubscriptionForWrongXname` and its two callers). */
module MovedHardware {
  import opened Text
  import opened Identity
  import opened Subscriptions
  import opened SubscriptionFacts
  import opened SubscribePass

  // ------------------------------------------------ the test

  /** `other` is what follows the last slash of a URL. */
  ghost predicate EndsIn(url: string, other: string) {
    '/' !in other && (url == other || exists front: string :: url == front + "/" + other)
  }

  /** The position of the last slash. */
  function LastSlash(url: string): (k: nat)
    requires '/' in url
    ensures k < |url| && url[k] == '/' && '/' !in url[k + 1..]
  {
    var n := |url| - 1;
    if url[n] == '/' then n
    else
      assert url == url[..n] + [url[n]];
      var k := LastSlash(url[..n]);
      assert url[k + 1..] == url[..n][k + 1..] + [url[n]];
      k
  }

  lemma CutAtSlash(url: string, k: nat)
    requires k < |url| && url[k] == '/'
    ensures url == url[..k] + "/" + url[k + 1..]
  {
  }

  lemma SegmentSplits(url: string)
    requires '/' in url
    ensures exists front: string :: url == front + "/" + LastSegment(url)
  {
    var k := LastSlash(url);
    CutAtSlash(url, k);
    LastSegmentIsName(url[..k], url[k + 1..]);
  }

  lemma LastSegmentIff(url: string, other: string)
    ensures LastSegment(url) == other <==> EndsIn(url, other)
  {
    SplitPartsFree(url, '/');
    assert LastSegment(url) in Split(url, '/');
    if '/' in url {
      SegmentSplits(url);
    } else {
      SplitWord(url, '/');
    }
    if EndsIn(url, other) {
      if front: string :| url == front + "/" + other {
        LastSegmentIsName(front, other);
      } else {
        SplitWord(url, '/');
      }
    }
  }

  /** Both names are valid and denote different components. */
  predicate Differ(c: Site, id: string, name: string) {
    c.isXname(name) && c.normalize(name) != c.normalize(id)
  }

  /** A subscription left from before a move: pruning is on, the endpoint has a valid name, and the context, or
      where that is no xname the end of the destination, names another component. */
  ghost predicate Moved(c: Site, id: string, sub: Subscription) {
    && c.prune && c.isXname(id)
    && (Differ(c, id, sub.context) ||
        (!c.isXname(sub.context) && exists other | EndsIn(sub.destination, other) :: Differ(c, id, other)))
  }

  lemma MovedIff(c: Site, id: string, sub: Subscription)
    ensures ForWrongXname(c, id, sub) <==> Moved(c, id, sub)
  {
    LastSegmentIff(sub.destination, LastSegment(sub.destination));
    forall other | EndsIn(sub.destination, other) ensures other == LastSegment(sub.destination) {
      LastSegmentIff(sub.destination, other);
    }
  }

  /** The same for a destination whose end is known. */
  lemma WrongXnameIff(c: Site, id: string, sub: Subscription, front: string, other: string)
    requires sub.destination == front + "/" + other && '/' !in other
    ensures ForWrongXname(c, id, sub) <==>
            && c.prune && c.isXname(id)
            && ((c.isXname(sub.context) && c.normalize(sub.context) != c.normalize(id)) ||
                (!c.isXname(sub.context) && c.isXname(other) && c.normalize(other) != c.normalize(id)))
  {
    LastSegmentIsName(front, other);
  }

  // ------------------------------------------------ the prune loop, whatever fails

  /** Every request the loop needs to delete the member succeeds. */
  predicate Deletable(net: Net, x: Member) {
    !net.fails(ListSubscriptions) && !net.fails(GetSubscription(x.oid)) && !net.fails(DeleteSubscription(x.oid))
  }

  lemma {:induction false} SweepExactly(c: Site, id: string, net: Net, m: seq<Member>, x: Member)
    requires !net.fails(ListSubscriptions)
    ensures x in Sweep(c, id, net, m) <==> x in m && !(Moved(c, id, x.sub) && Deletable(net, x))
  {
    if m == [] {
    } else {
      MovedIff(c, id, x.sub);
      SweepExactly(c, id, net, m[1..], x);
      assert m == [m[0]] + m[1..];
    }
  }

  /** `a` is `b` with some elements left out. */
  predicate Subsequence(a: seq<Member>, b: seq<Member>)
    decreases |b|
  {
    a == [] || (b != [] && ((a[0] == b[0] && Subsequence(a[1..], b[1..])) || Subsequence(a, b[1..])))
  }

  lemma {:induction false} SelfSubsequence(m: seq<Member>)
    ensures Subsequence(m, m)
  {
    if m == [] {
    } else {
      SelfSubsequence(m[1..]);
    }
  }

  lemma {:induction false} SweepIsSubsequence(c: Site, id: string, net: Net, m: seq<Member>)
    ensures Subsequence(Sweep(c, id, net, m), m)
  {
    if m == [] {
    } else {
      SweepIsSubsequence(c, id, net, m[1..]);
      var n := Sweep(c, id, net, m[1..]);
      assert ([m[0]] + n)[1..] == n;
    }
  }

  /** The prune loop deletes exactly the subscriptions of moved hardware that it can read and delete, and
      leaves all others as they are and in their order, whatever fails. */
  lemma PruneExactly(c: Site, id: string, net: Net, m: seq<Member>, x: Member)
    requires DistinctOids(m)
    ensures x in Prune(c, id, net, m) <==> x in m && !(Moved(c, id, x.sub) && Deletable(net, x))
    ensures Subsequence(Prune(c, id, net, m), m)
  {
    LoopsAreWalks(c, id, NilGroup, net, m);
    SelfSubsequence(m);
    SweepIsSubsequence(c, id, net, m);
    if !net.fails(ListSubscriptions) {
      SweepExactly(c, id, net, m, x);
    }
  }

  /** Without failures no subscription of moved hardware is left, and nothing else is lost. */
  lemma FailureFreePrune(c: Site, id: string, net: Net, m: seq<Member>, x: Member)
    requires DistinctOids(m) && Reliable(net)
    ensures x in Prune(c, id, net, m) <==> x in m && !Moved(c, id, x.sub)
  {
    PruneExactly(c, id, net, m, x);
  }
}
