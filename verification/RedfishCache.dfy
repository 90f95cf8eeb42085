/** The Redfish type cache (cmd/hmcollector/cache.go) and `GetRedfishType` (cmd/hmcollector/rf.go). */
module RedfishCache {

  datatype RfType = CrayRfType | GigabyteRfType | HpeRfType | IntelRfType | OpenBmcRfType | UnknownRfType | UnsetRfType

  datatype Entry = Entry(lastDiscoveryAttempt: string, rfType: RfType)

  type Cache = map<string, Entry>

  function Read(cache: Cache, id: string, attempt: string): RfType {
    if id in cache && cache[id].lastDiscoveryAttempt == attempt then cache[id].rfType else UnsetRfType
  }

  function Write(cache: Cache, id: string, attempt: string, t: RfType): Cache {
    cache[id := Entry(attempt, t)]
  }

  class EndpointsCache {
    var cache: Cache

    constructor ()
      ensures cache == map[]
    {
      cache := map[];
    }

    method ReadRfType(id: string, attempt: string) returns (t: RfType)
      ensures t == Read(cache, id, attempt)
    {
      if id in cache {
        var v := cache[id];
        if attempt == v.lastDiscoveryAttempt {
          return v.rfType;
        }
      }
      t := UnsetRfType;
    }

    method WriteRfType(id: string, attempt: string, t: RfType)
      modifies this
      ensures cache == Write(old(cache), id, attempt, t)
    {
      if id !in cache {
        cache := cache[id := Entry("", CrayRfType)];
      }
      cache := cache[id := cache[id].(rfType := t)];
      cache := cache[id := cache[id].(lastDiscoveryAttempt := attempt)];
      assert cache == Write(old(cache), id, attempt, t);
    }

    /** `probed` is what asking the endpoint would answer at this moment. */
    method GetRedfishType(id: string, attempt: string, probed: RfType) returns (t: RfType)
      modifies this
      ensures var hit := Read(old(cache), id, attempt);
              && t == (if hit == UnsetRfType then probed else hit)
              && cache == (if hit == UnsetRfType then Write(old(cache), id, attempt, probed) else old(cache))
    {
      t := ReadRfType(id, attempt);
      if t == UnsetRfType {
        t := probed;
        WriteRfType(id, attempt, t);
      }
    }
  }

  // ------------------------------------------------ any interleaving of calls

  datatype Call =
    | Reading(id: string, attempt: string)
    | Probing(id: string, attempt: string)
    | Writing(id: string, attempt: string, rfType: RfType)

  /** An answer for an endpoint and a discovery attempt. */
  datatype Answer = Answer(id: string, attempt: string, rfType: RfType)

  datatype State = State(cache: Cache, calls: map<nat, Call>, probes: seq<Answer>, hits: seq<Answer>, results: seq<Answer>)

  datatype Label = Begin(k: nat, id: string, attempt: string) | ReadStep(k: nat) | ProbeStep(k: nat, rfType: RfType) | WriteStep(k: nat)

  predicate Enabled(s: State, l: Label) {
    match l
    case Begin(k, _, _) => k !in s.calls
    case ReadStep(k) => k in s.calls && s.calls[k].Reading?
    case ProbeStep(k, _) => k in s.calls && s.calls[k].Probing?
    case WriteStep(k) => k in s.calls && s.calls[k].Writing?
  }

  function Do(s: State, l: Label): State
    requires Enabled(s, l)
  {
    match l
    case Begin(k, id, attempt) => s.(calls := s.calls[k := Reading(id, attempt)])
    case ReadStep(k) =>
      var id, attempt := s.calls[k].id, s.calls[k].attempt;
      var t := Read(s.cache, id, attempt);
      if t == UnsetRfType then s.(calls := s.calls[k := Probing(id, attempt)])
      else
        var a := Answer(id, attempt, t);
        s.(calls := s.calls - {k}, hits := s.hits + [a], results := s.results + [a])
    case ProbeStep(k, t) =>
      var id, attempt := s.calls[k].id, s.calls[k].attempt;
      s.(calls := s.calls[k := Writing(id, attempt, t)], probes := s.probes + [Answer(id, attempt, t)])
    case WriteStep(k) =>
      var call := s.calls[k];
      s.(cache := Write(s.cache, call.id, call.attempt, call.rfType),
         calls := s.calls - {k},
         results := s.results + [Answer(call.id, call.attempt, call.rfType)])
  }

  predicate Runs(s: State, ls: seq<Label>)
    decreases |ls|, 0
  {
    ls == [] || (Runs(s, ls[..|ls| - 1]) && Enabled(After(s, ls[..|ls| - 1]), ls[|ls| - 1]))
  }

  function After(s: State, ls: seq<Label>): State
    requires Runs(s, ls)
    decreases |ls|, 1
  {
    if ls == [] then s else Do(After(s, ls[..|ls| - 1]), ls[|ls| - 1])
  }

  /** Everything cached, about to be written, or returned came from a probe for the same endpoint and
      the same discovery attempt; hits are never failed probes. */
  ghost predicate Sound(s: State) {
    && (forall id | id in s.cache :: Answer(id, s.cache[id].lastDiscoveryAttempt, s.cache[id].rfType) in s.probes)
    && (forall k | k in s.calls && s.calls[k].Writing? :: Answer(s.calls[k].id, s.calls[k].attempt, s.calls[k].rfType) in s.probes)
    && (forall a | a in s.results :: a in s.probes)
    && (forall a | a in s.hits :: a in s.probes && a.rfType != UnsetRfType)
  }

  lemma SoundStep(s: State, l: Label)
    requires Sound(s) && Enabled(s, l)
    ensures Sound(Do(s, l))
  {
  }

  lemma {:induction false} CacheIsSound(s: State, ls: seq<Label>)
    requires s == State(map[], map[], [], [], []) && Runs(s, ls)
    ensures Sound(After(s, ls))
    decreases |ls|
  {
    if ls == [] {
    } else {
      CacheIsSound(s, ls[..|ls| - 1]);
      SoundStep(After(s, ls[..|ls| - 1]), ls[|ls| - 1]);
    }
  }

  /** The labels of one call that nothing interrupts. */
  function CallLabels(s: State, k: nat, r: Request): seq<Label> {
    [Begin(k, r.id, r.attempt)] + [ReadStep(k)] +
    (if Misses(s.cache, r) then [ProbeStep(k, r.probed)] + [WriteStep(k)] else [])
  }

  lemma ExtendRun(s: State, ls: seq<Label>, l: Label)
    requires Runs(s, ls) && Enabled(After(s, ls), l)
    ensures Runs(s, ls + [l]) && After(s, ls + [l]) == Do(After(s, ls), l)
  {
    assert (ls + [l])[..|ls|] == ls;
  }

  /** The machine and the sequential view agree: a call that is not interrupted leaves the cache and the result of
      `Next` and `ResultOf`, has probed if and only if it missed, and is over. */
  lemma UninterruptedCall(s: State, k: nat, r: Request)
    requires k !in s.calls
    ensures var ls := CallLabels(s, k, r);
            && Runs(s, ls)
            && var t := After(s, ls);
               && t.cache == Next(s.cache, r) && t.calls == s.calls
               && t.results == s.results + [Answer(r.id, r.attempt, ResultOf(s.cache, r))]
               && t.probes == s.probes + (if Misses(s.cache, r) then [Answer(r.id, r.attempt, r.probed)] else [])
               && t.hits == s.hits + (if Misses(s.cache, r) then [] else [Answer(r.id, r.attempt, ResultOf(s.cache, r))])
  {
    var l0: seq<Label> := [];
    ExtendRun(s, l0, Begin(k, r.id, r.attempt));
    var l1 := l0 + [Begin(k, r.id, r.attempt)];
    assert l1 == [Begin(k, r.id, r.attempt)];
    ExtendRun(s, l1, ReadStep(k));
    var l2 := l1 + [ReadStep(k)];
    if Misses(s.cache, r) {
      ExtendRun(s, l2, ProbeStep(k, r.probed));
      ExtendRun(s, l2 + [ProbeStep(k, r.probed)], WriteStep(k));
      assert CallLabels(s, k, r) == l2 + [ProbeStep(k, r.probed)] + [WriteStep(k)];
    } else {
      assert CallLabels(s, k, r) == l2;
    }
  }

  // ------------------------------------------------ sequential calls: exactly when one probes

  /** A call together with what a probe at that moment would answer. */
  datatype Request = Request(id: string, attempt: string, probed: RfType)

  /** The call finds nothing in the cache. */
  predicate Misses(cache: Cache, r: Request) {
    Read(cache, r.id, r.attempt) == UnsetRfType
  }

  function ResultOf(cache: Cache, r: Request): RfType {
    if Misses(cache, r) then r.probed else Read(cache, r.id, r.attempt)
  }

  function Next(cache: Cache, r: Request): Cache {
    if Misses(cache, r) then Write(cache, r.id, r.attempt, r.probed) else cache
  }

  /** The cache before call `k` of a sequence. */
  function CacheAt(cache: Cache, rs: seq<Request>, k: nat): Cache
    requires k <= |rs|
  {
    if k == 0 then cache else Next(CacheAt(cache, rs, k - 1), rs[k - 1])
  }

  predicate ProbesAt(cache: Cache, rs: seq<Request>, k: nat)
    requires k < |rs|
  {
    Misses(CacheAt(cache, rs, k), rs[k])
  }

  function ResultAt(cache: Cache, rs: seq<Request>, k: nat): RfType
    requires k < |rs|
  {
    ResultOf(CacheAt(cache, rs, k), rs[k])
  }

  /** Calls `j` and `k` are consecutive calls for one endpoint. */
  predicate Consecutive(rs: seq<Request>, j: nat, k: nat) {
    j < k < |rs| && rs[j].id == rs[k].id && forall i | j < i < k :: rs[i].id != rs[k].id
  }

  /** After a call the entry of its endpoint holds its timestamp and its result, until the next call for it. */
  lemma {:induction false} EntryOfLastCall(cache: Cache, rs: seq<Request>, j: nat, k: nat)
    requires j < k <= |rs| && forall i | j < i < k :: rs[i].id != rs[j].id
    ensures var c := CacheAt(cache, rs, k);
            rs[j].id in c && c[rs[j].id] == Entry(rs[j].attempt, ResultAt(cache, rs, j))
    decreases k
  {
    if k == j + 1 {
    } else {
      EntryOfLastCall(cache, rs, j, k - 1);
    }
  }

  /** The exact condition: in any sequence of calls, from any cache, a call probes if and only if its timestamp
      differs from that of the previous call for the endpoint, or that call returned Unset. */
  lemma ProbesIff(cache: Cache, rs: seq<Request>, j: nat, k: nat)
    requires Consecutive(rs, j, k)
    ensures ProbesAt(cache, rs, k) <==> rs[k].attempt != rs[j].attempt || ResultAt(cache, rs, j) == UnsetRfType
  {
    EntryOfLastCall(cache, rs, j, k);
  }

  lemma {:induction false} Untouched(cache: Cache, rs: seq<Request>, id: string, k: nat)
    requires k <= |rs| && forall i | 0 <= i < k :: rs[i].id != id
    ensures var c := CacheAt(cache, rs, k); (id in c <==> id in cache) && (id in c ==> c[id] == cache[id])
    decreases k
  {
    if k == 0 {
    } else {
      Untouched(cache, rs, id, k - 1);
    }
  }

  /** The last call for an endpoint among the first `k`, if there is one. */
  function LastCall(rs: seq<Request>, id: string, k: nat): (j: int)
    requires k <= |rs|
    ensures -1 <= j < k
    ensures j >= 0 ==> rs[j].id == id
    ensures forall i | j < i < k :: rs[i].id != id
  {
    if k == 0 then -1 else if rs[k - 1].id == id then k - 1 else LastCall(rs, id, k - 1)
  }

  /** Probes for an endpoint among the first `k` calls. */
  function Probes(cache: Cache, rs: seq<Request>, id: string, k: nat): nat
    requires k <= |rs|
  {
    if k == 0 then 0
    else Probes(cache, rs, id, k - 1) + (if rs[k - 1].id == id && ProbesAt(cache, rs, k - 1) then 1 else 0)
  }

  function FailedProbes(cache: Cache, rs: seq<Request>, id: string, k: nat): nat
    requires k <= |rs|
  {
    if k == 0 then 0
    else
      FailedProbes(cache, rs, id, k - 1) +
      (if rs[k - 1].id == id && ProbesAt(cache, rs, k - 1) && rs[k - 1].probed == UnsetRfType then 1 else 0)
  }

  /** Calls for one endpoint that agree on the discovery attempt probe it at most once successfully, and not at all
      when the cache already knows the answer, whatever other endpoints are asked about in between. */
  lemma {:induction false} ProbesAreRare(cache: Cache, rs: seq<Request>, id: string, attempt: string, k: nat)
    requires k <= |rs| && forall i | 0 <= i < |rs| :: rs[i].id == id ==> rs[i].attempt == attempt
    ensures Probes(cache, rs, id, k) <= FailedProbes(cache, rs, id, k) + (if Read(cache, id, attempt) == UnsetRfType then 1 else 0)
    ensures var j := LastCall(rs, id, k);
            if j < 0 then Probes(cache, rs, id, k) == 0
            else ResultAt(cache, rs, j) == UnsetRfType ==> Probes(cache, rs, id, k) <= FailedProbes(cache, rs, id, k)
    ensures var j := LastCall(rs, id, k);
            j >= 0 && Read(cache, id, attempt) != UnsetRfType ==> ResultAt(cache, rs, j) != UnsetRfType
    decreases k
  {
    if k == 0 {
    } else {
      ProbesAreRare(cache, rs, id, attempt, k - 1);
      if rs[k - 1].id == id {
        var j := LastCall(rs, id, k - 1);
        if j < 0 {
          Untouched(cache, rs, id, k - 1);
        } else {
          ProbesIff(cache, rs, j, k - 1);
        }
      }
    }
  }

  /** Calls for one endpoint whose discovery attempt differs from that of the call before. */
  predicate Restless(rs: seq<Request>, id: string) {
    && (forall k | 0 <= k < |rs| :: rs[k].id == id)
    && (forall k | 0 < k < |rs| :: rs[k - 1].attempt != rs[k].attempt)
  }

  /** When the discovery attempt changes from call to call every call probes. */
  lemma {:induction false} ChangingAttemptsAlwaysProbe(cache: Cache, rs: seq<Request>, id: string, k: nat)
    requires Restless(rs, id) && (rs != [] ==> Read(cache, id, rs[0].attempt) == UnsetRfType) && k <= |rs|
    ensures Probes(cache, rs, id, k) == k
    decreases k
  {
    if k <= 1 {
    } else {
      ChangingAttemptsAlwaysProbe(cache, rs, id, k - 1);
      ProbesIff(cache, rs, k - 2, k - 1);
    }
  }

  /** Calls with two timestamps in turn. */
  function Alternate(id: string, a: string, b: string, t: RfType, n: nat): (rs: seq<Request>)
    requires a != b
    ensures |rs| == n && Restless(rs, id) && (n > 0 ==> rs[0] == Request(id, a, t))
    decreases n
  {
    if n == 0 then [] else [Request(id, a, t)] + Alternate(id, b, a, t, n - 1)
  }

  /** So two timestamps in turn, which takes a state manager that goes back and forth, defeat the cache. */
  lemma AlternatingAttemptsAlwaysProbe(cache: Cache, id: string, a: string, b: string, t: RfType, n: nat)
    requires a != b && Read(cache, id, a) == UnsetRfType
    ensures Probes(cache, Alternate(id, a, b, t, n), id, n) == n
  {
    ChangingAttemptsAlwaysProbe(cache, Alternate(id, a, b, t, n), id, n);
  }
}
