/**
 Rate limit of PDU polling (cmd/hmcollector/polling.go, `collectData`): a queued poll is dropped when it is
 taken less than `interval` after the last contact.  Several workers take copies of one PDU from the
 channel and share its LastContacted cell without a lock, so the test of one poll and the answers of
 others interleave in any way.
 */
module PduRateLimit {

  /** What happens to one PDU: a worker takes a queued poll and tests it, or a request of a poll is answered. */
  datatype Event = Take(poll: nat, at: int) | Answer(poll: nat, at: int)

  /** The clock is monotone, and `last` lies in the past. */
  predicate Monotone(last: int, tr: seq<Event>) {
    && (forall i | 0 <= i < |tr| :: last <= tr[i].at)
    && (forall i, j | 0 <= i < j < |tr| :: tr[i].at <= tr[j].at)
  }

  /** The LastContacted cell after a trace: the time of its last answer. */
  function LastAfter(last: int, tr: seq<Event>): int
    decreases |tr|
  {
    if tr == [] then last
    else if tr[|tr| - 1].Answer? then tr[|tr| - 1].at
    else LastAfter(last, tr[..|tr| - 1])
  }

  /** The poll taken at position `i` passes the test. */
  predicate Passes(last: int, interval: int, tr: seq<Event>, i: nat) {
    i < |tr| && tr[i].Take? && tr[i].at - LastAfter(last, tr[..i]) >= interval
  }

  /** It passes and some request of it is answered. */
  predicate Contacts(last: int, interval: int, tr: seq<Event>, i: nat) {
    Passes(last, interval, tr, i) && exists k | i < k < |tr| :: tr[k].Answer? && tr[k].poll == tr[i].poll
  }

  /** Some request, of any poll, is answered between two positions. */
  predicate AnswerBetween(tr: seq<Event>, i: nat, k: nat) {
    exists a | i < a < k && a < |tr| :: tr[a].Answer?
  }

  /** A possible trace: every poll is taken once, and only polls that passed are answered. */
  predicate Possible(last: int, interval: int, tr: seq<Event>) {
    && Monotone(last, tr)
    && (forall i, j | 0 <= i < j < |tr| && tr[i].Take? && tr[j].Take? :: tr[i].poll != tr[j].poll)
    && (forall k | 0 <= k < |tr| && tr[k].Answer? ::
          exists i | 0 <= i < k :: Passes(last, interval, tr, i) && tr[i].poll == tr[k].poll)
  }

  // ------------------------------------------------ the two places that touch the cell

  /** What one poll contributes when no other worker comes in between. */
  function Alone(last: int, interval: int, poll: nat, start: int, answers: seq<int>): seq<Event> {
    [Take(poll, start)] +
    (if start - last >= interval then seq(|answers|, k requires 0 <= k < |answers| => Answer(poll, answers[k])) else [])
  }

  class Pdu {
    var lastContacted: int   // shared by every queued copy of the endpoint

    method Due(interval: int, now: int) returns (due: bool)
      ensures due == (now - lastContacted >= interval)
      ensures forall tr, last | LastAfter(last, tr) == lastContacted ::
                due == Passes(last, interval, tr + [Take(0, now)], |tr|)
    {
      due := now - lastContacted >= interval;
      forall tr, last | LastAfter(last, tr) == lastContacted
        ensures due == Passes(last, interval, tr + [Take(0, now)], |tr|)
      {
        assert (tr + [Take(0, now)])[..|tr|] == tr;
      }
    }

    method Answered(now: int)
      modifies this
      ensures lastContacted == now
      ensures forall tr, last: int, poll :: LastAfter(last, tr + [Answer(poll, now)]) == lastContacted
    {
      lastContacted := now;
    }

    /** A whole poll that no other worker interrupts. */
    method Collect(interval: int, poll: nat, start: int, answers: seq<int>) returns (made: bool)
      modifies this
      ensures var tr := Alone(old(lastContacted), interval, poll, start, answers);
              && lastContacted == LastAfter(old(lastContacted), tr)
              && (made <==> Contacts(old(lastContacted), interval, tr, 0))
    {
      ghost var last := lastContacted;
      ghost var tr := Alone(last, interval, poll, start, answers);
      assert tr[..0] == [] && LastAfter(last, []) == last;
      made := false;
      var due := Due(interval, start);
      if !due {
        LastOfTake(last, poll, start);
        return;
      }
      LastOfTake(last, poll, start);
      assert tr[..1] == [Take(poll, start)];
      for k := 0 to |answers|
        invariant made == (k > 0)
        invariant lastContacted == LastAfter(last, tr[..k + 1])
      {
        Answered(answers[k]);
        made := true;
        assert tr[..k + 2] == tr[..k + 1] + [Answer(poll, answers[k])];
      }
      assert tr[..|answers| + 1] == tr;
      if made {
        assert tr[1].Answer? && tr[1].poll == tr[0].poll;
      }
    }
  }

  lemma LastOfTake(last: int, poll: nat, start: int)
    ensures LastAfter(last, [Take(poll, start)]) == last
  {
    assert [Take(poll, start)][..0] == [];
  }

  // ------------------------------------------------ when a second poll passes

  lemma {:induction false} LastIsPast(last: int, tr: seq<Event>, k: nat)
    requires Monotone(last, tr) && k < |tr|
    ensures last <= LastAfter(last, tr[..k]) <= tr[k].at
    decreases k
  {
    if k == 0 {
    } else {
      LastIsPast(last, tr, k - 1);
      assert tr[..k][..k - 1] == tr[..k - 1];
    }
  }

  /** Between two positions the cell either keeps its value, or holds a time after the first. */
  lemma {:induction false} LastBetween(last: int, tr: seq<Event>, i: nat, k: nat)
    requires Monotone(last, tr) && i < k < |tr| && tr[i].Take?
    ensures if AnswerBetween(tr, i, k) then tr[i].at <= LastAfter(last, tr[..k]) <= tr[k].at
            else LastAfter(last, tr[..k]) == LastAfter(last, tr[..i])
    decreases k
  {
    LastIsPast(last, tr, k);
    assert tr[..k][..k - 1] == tr[..k - 1];
    if k == i + 1 {
    } else {
      LastBetween(last, tr, i, k - 1);
      if AnswerBetween(tr, i, k - 1) {
        var a :| i < a < k - 1 && a < |tr| && tr[a].Answer?;
        assert AnswerBetween(tr, i, k);
      } else if tr[k - 1].Answer? {
        assert AnswerBetween(tr, i, k);
      }
    }
  }

  /** The exact condition: a poll taken less than `interval` after the start of one that passed the test
      passes too if and only if no request has been answered in between. */
  lemma PassesAgainIff(last: int, interval: int, tr: seq<Event>, i: nat, k: nat)
    requires Monotone(last, tr) && Passes(last, interval, tr, i) && i < k < |tr| && tr[k].Take?
    requires tr[k].at - tr[i].at < interval
    ensures Passes(last, interval, tr, k) <==> !AnswerBetween(tr, i, k)
  {
    LastBetween(last, tr, i, k);
  }

  /** Polls that pass the test on both sides of an answer start at least one interval apart. */
  lemma SeparatedBySpace(last: int, interval: int, tr: seq<Event>, i: nat, k: nat)
    requires Monotone(last, tr) && Passes(last, interval, tr, i) && Passes(last, interval, tr, k) && AnswerBetween(tr, i, k)
    ensures tr[i].at + interval <= tr[k].at
  {
    LastBetween(last, tr, i, k);
  }

  // ------------------------------------------------ how many polls start in a window

  /** Polls that pass the test, in order. */
  predicate Polls(last: int, interval: int, tr: seq<Event>, ks: seq<nat>) {
    && (forall n | 0 <= n < |ks| :: Passes(last, interval, tr, ks[n]))
    && (forall m, n | 0 <= m < n < |ks| :: ks[m] < ks[n])
  }

  /** Polls of the list that were taken before any request was answered since the one before. */
  function Overlaps(tr: seq<Event>, ks: seq<nat>): nat
    decreases |ks|
  {
    if |ks| <= 1 then 0
    else
      var n := |ks| - 1;
      Overlaps(tr, ks[..n]) + (if AnswerBetween(tr, ks[n - 1], ks[n]) then 0 else 1)
  }

  /** One more interval on top of `d`. */
  lemma OneMore(d: int, interval: int, from: int, mid: int, to: int)
    requires from + d * interval <= mid && mid + interval <= to
    ensures from + (d + 1) * interval <= to
  {
    assert (d + 1) * interval == d * interval + interval;
  }

  lemma {:induction false} Span(last: int, interval: nat, tr: seq<Event>, ks: seq<nat>)
    requires Monotone(last, tr) && Polls(last, interval, tr, ks) && ks != []
    ensures tr[ks[0]].at + (|ks| - 1 - Overlaps(tr, ks)) * interval <= tr[ks[|ks| - 1]].at
    decreases |ks|
  {
    if |ks| == 1 {
      assert Overlaps(tr, ks) == 0 && 0 * interval == 0;
    } else {
      var n := |ks| - 1;
      var init := ks[..n];
      var d := n - 1 - Overlaps(tr, init);
      Span(last, interval, tr, init);
      var from, mid, to := tr[ks[0]].at, tr[ks[n - 1]].at, tr[ks[n]].at;
      assert from + d * interval <= mid;
      if AnswerBetween(tr, ks[n - 1], ks[n]) {
        SeparatedBySpace(last, interval, tr, ks[n - 1], ks[n]);
        OneMore(d, interval, from, mid, to);
        assert |ks| - 1 - Overlaps(tr, ks) == d + 1;
      } else {
        assert |ks| - 1 - Overlaps(tr, ks) == d;
      }
    }
  }

  lemma Quotient(n: int, d: int, w: nat)
    requires d > 0 && n * d <= w
    ensures n <= w / d
  {
    var q := w / d;
    var k := n - q;
    assert w == q * d + w % d;
    assert n * d == q * d + k * d;
    assert k * d < d;
  }

  /** In every interleaving: polls that pass the test and start within a window number at most
      window/interval + 1, plus those taken before any answer since the previous one. */
  lemma RateIsBounded(last: int, interval: nat, tr: seq<Event>, ks: seq<nat>, window: nat)
    requires interval > 0 && Monotone(last, tr) && Polls(last, interval, tr, ks) && ks != []
    requires tr[ks[|ks| - 1]].at <= tr[ks[0]].at + window
    ensures |ks| <= window / interval + 1 + Overlaps(tr, ks)
  {
    Span(last, interval, tr, ks);
    Quotient(|ks| - 1 - Overlaps(tr, ks), interval, window);
  }

  /** A poll that makes contact has an answer, its own or another's, before the next poll that does is taken. */
  predicate Prompt(last: int, interval: int, tr: seq<Event>) {
    forall i, k | 0 <= i < k < |tr| && Contacts(last, interval, tr, i) && Contacts(last, interval, tr, k) ::
      AnswerBetween(tr, i, k)
  }

  predicate AllContact(last: int, interval: int, tr: seq<Event>, ks: seq<nat>) {
    forall n | 0 <= n < |ks| :: Contacts(last, interval, tr, ks[n])
  }

  lemma {:induction false} PromptHasNoOverlaps(last: int, interval: int, tr: seq<Event>, ks: seq<nat>)
    requires Prompt(last, interval, tr) && Polls(last, interval, tr, ks) && AllContact(last, interval, tr, ks)
    ensures Overlaps(tr, ks) == 0
    decreases |ks|
  {
    if |ks| <= 1 {
    } else {
      var n := |ks| - 1;
      PromptHasNoOverlaps(last, interval, tr, ks[..n]);
      assert Contacts(last, interval, tr, ks[n - 1]) && Contacts(last, interval, tr, ks[n]);
    }
  }

  /** If these polls make contact and start within `window`, they are at most window/interval + 1. */
  predicate WithinBound(last: int, interval: nat, tr: seq<Event>, ks: seq<nat>, window: nat)
    requires interval > 0
  {
    Polls(last, interval, tr, ks) && AllContact(last, interval, tr, ks) && ks != [] && tr[ks[|ks| - 1]].at <= tr[ks[0]].at + window
    ==> |ks| <= window / interval + 1
  }

  /** The bound holds for all polls and all windows. */
  ghost predicate SimplyBounded(last: int, interval: nat, tr: seq<Event>)
    requires interval > 0
  {
    forall ks, window: nat :: WithinBound(last, interval, tr, ks, window)
  }

  /** Two polls that make contact start less than one interval apart. */
  predicate Crowded(last: int, interval: int, tr: seq<Event>) {
    exists i, k | 0 <= i < k < |tr| :: TooClose(last, interval, tr, i, k)
  }

  predicate TooClose(last: int, interval: int, tr: seq<Event>, i: nat, k: nat) {
    && i < k < |tr| && Contacts(last, interval, tr, i) && Contacts(last, interval, tr, k)
    && tr[k].at - tr[i].at < interval && !AnswerBetween(tr, i, k)
  }

  lemma {:induction false} UncrowdedSpan(last: int, interval: nat, tr: seq<Event>, ks: seq<nat>)
    requires Monotone(last, tr) && Polls(last, interval, tr, ks) && AllContact(last, interval, tr, ks) && ks != []
    requires !Crowded(last, interval, tr)
    ensures tr[ks[0]].at + (|ks| - 1) * interval <= tr[ks[|ks| - 1]].at
    decreases |ks|
  {
    if |ks| == 1 {
    } else {
      var n := |ks| - 1;
      var i, k := ks[n - 1], ks[n];
      UncrowdedSpan(last, interval, tr, ks[..n]);
      assert Contacts(last, interval, tr, i) && Contacts(last, interval, tr, k);
      assert !TooClose(last, interval, tr, i, k);
      if tr[k].at - tr[i].at < interval {
        PassesAgainIff(last, interval, tr, i, k);
      }
      OneMore(n - 1, interval, tr[ks[0]].at, tr[i].at, tr[k].at);
    }
  }

  /** The exact condition for a trace: the bound window/interval + 1 holds in all windows if and only if no two
      contacting polls are taken within one interval without an answer in between. */
  lemma BoundIffNotCrowded(last: int, interval: nat, tr: seq<Event>)
    requires interval > 0 && Monotone(last, tr)
    ensures SimplyBounded(last, interval, tr) <==> !Crowded(last, interval, tr)
  {
    if Crowded(last, interval, tr) {
      var i, k :| 0 <= i < k < |tr| && TooClose(last, interval, tr, i, k);
      CrowdedBreaksBound(last, interval, tr, i, k);
    } else {
      forall ks, window: nat ensures WithinBound(last, interval, tr, ks, window) {
        UncrowdedIsWithinBound(last, interval, tr, ks, window);
      }
    }
  }

  lemma CrowdedBreaksBound(last: int, interval: nat, tr: seq<Event>, i: nat, k: nat)
    requires interval > 0 && Monotone(last, tr) && TooClose(last, interval, tr, i, k)
    ensures !WithinBound(last, interval, tr, [i, k], tr[k].at - tr[i].at)
  {
    var window: nat := tr[k].at - tr[i].at;
    assert window / interval == 0;
    assert Passes(last, interval, tr, i) && Passes(last, interval, tr, k);
  }

  lemma UncrowdedIsWithinBound(last: int, interval: nat, tr: seq<Event>, ks: seq<nat>, window: nat)
    requires interval > 0 && Monotone(last, tr) && !Crowded(last, interval, tr)
    ensures WithinBound(last, interval, tr, ks, window)
  {
    if Polls(last, interval, tr, ks) && AllContact(last, interval, tr, ks) && ks != [] && tr[ks[|ks| - 1]].at <= tr[ks[0]].at + window {
      UncrowdedSpan(last, interval, tr, ks);
      Quotient(|ks| - 1, interval, window);
    }
  }

  /** In particular it holds when an answer comes before the next poll that makes contact is taken, as when polls
      of one PDU do not overlap. */
  lemma PromptPollsAreBounded(last: int, interval: nat, tr: seq<Event>, ks: seq<nat>, window: nat)
    requires interval > 0 && Monotone(last, tr) && Prompt(last, interval, tr)
    requires Polls(last, interval, tr, ks) && AllContact(last, interval, tr, ks) && ks != []
    requires tr[ks[|ks| - 1]].at <= tr[ks[0]].at + window
    ensures |ks| <= window / interval + 1
  {
    PromptHasNoOverlaps(last, interval, tr, ks);
    RateIsBounded(last, interval, tr, ks, window);
  }

  function TwoWorkers(t: int, gap: nat): seq<Event> {
    [Take(0, t), Take(1, t + gap), Answer(0, t + gap), Answer(1, t + gap)]
  }

  lemma TwoWorkersPass(last: int, interval: nat, gap: nat)
    ensures var tr := TwoWorkers(last + interval, gap);
            Contacts(last, interval, tr, 0) && Contacts(last, interval, tr, 1)
  {
    var tr := TwoWorkers(last + interval, gap);
    assert tr[..0] == [] && tr[..1] == [Take(0, last + interval)];
    LastOfTake(last, 0, last + interval);
    assert tr[2].Answer? && tr[2].poll == 0 && tr[3].Answer? && tr[3].poll == 1;
  }

  /** Two workers: the second takes its copy before the first has an answer, both pass and both make contact,
      any `gap` shorter than the interval apart. */
  lemma TwoWorkersOverlap(last: int, interval: nat, gap: nat)
    requires gap < interval
    ensures var tr := TwoWorkers(last + interval, gap);
            && Possible(last, interval, tr)
            && Contacts(last, interval, tr, 0) && Contacts(last, interval, tr, 1)
            && !SimplyBounded(last, interval, tr)
  {
    var tr := TwoWorkers(last + interval, gap);
    TwoWorkersPass(last, interval, gap);
    assert Passes(last, interval, tr, 0) && Passes(last, interval, tr, 1);
    assert TooClose(last, interval, tr, 0, 1);
    CrowdedBreaksBound(last, interval, tr, 0, 1);
  }
}
