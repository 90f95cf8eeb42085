/**
 `doHTTPAction` (cmd/hmcollector/http.go): a request that is answered 401 or 403 (sections 15.5.2 and
 15.5.4 of RFC 9110) refreshes the credentials from Vault and recurses if they changed.  The endpoint
 record is shared: calls of other goroutines may refresh it while a request is under way, and the
 comparison reads the record only after the answer.
 */
module HttpAction {
  import opened Basics

  datatype Credentials = Credentials(user: string, password: string)

  /** The answer to the n-th credential lookup of a call. */
  datatype VaultAnswer = Found(credentials: Credentials) | Unavailable

  /** The answer to the n-th request of a call. */
  datatype Reply = NoReply | Answer(status: int, readable: bool)

  datatype Result =
    | Success(status: int)
    | RequestFailed
    | RefreshFailed(status: int)
    | CredentialsUnchanged(status: int)
    | UnreadableBody(status: int)

  type Server = nat -> Reply
  type Vault = nat -> VaultAnswer

  /** What other goroutines leave in the endpoint record while the n-th request is under way, if they write it. */
  type Others = nat -> Option<Credentials>

  predicate Denied(r: Reply) {
    r.Answer? && (r.status == 401 || r.status == 403)
  }

  predicate AnsweredWith(r: Reply, status: int) {
    r == Answer(status, true) || r == Answer(status, false)
  }

  function Classify(reply: Reply, answer: VaultAnswer): Result {
    match reply
    case NoReply => RequestFailed
    case Answer(status, readable) =>
      if Denied(reply) then
        if answer.Found? then CredentialsUnchanged(status) else RefreshFailed(status)
      else if readable then Success(status) else UnreadableBody(status)
  }

  // ------------------------------------------------ the call

  datatype Call = Call(result: Result, sent: nat, credentials: Credentials)

  /** The recursion of the program, cut off after `fuel` requests; None means it is still going on. */
  function Attempt(server: Server, vault: Vault, others: Others, creds: Credentials, n: nat, fuel: nat): Option<Call>
    decreases fuel
  {
    if fuel == 0 then None
    else
      var previous := if others(n).Some? then others(n).value else creds;
      if Denied(server(n)) && vault(n).Found? && vault(n).credentials != previous then
        match Attempt(server, vault, others, vault(n).credentials, n + 1, fuel - 1)
        case None => None
        case Some(call) => Some(call.(sent := call.sent + 1))
      else Some(Call(Classify(server(n), vault(n)), 1, previous))
  }

  // ------------------------------------------------ where it stops

  /** The credentials of request `k` of a call that begins with request `n`: those it was called with, and
      from then on the answer of the previous lookup. */
  function InUse(vault: Vault, creds: Credentials, n: nat, k: nat): Credentials {
    if k <= n then creds
    else if vault(k - 1).Found? then vault(k - 1).credentials
    else Credentials("", "")
  }

  /** The record when request `k` has been answered: what others left there, else the credentials in use. */
  function AtAnswer(vault: Vault, others: Others, creds: Credentials, n: nat, k: nat): Credentials {
    if others(k).Some? then others(k).value else InUse(vault, creds, n, k)
  }

  /** Request `k` is the last one: it is not answered 401 or 403, or Vault has no answer, or its answer is
      what the record holds already. */
  predicate StopsAt(server: Server, vault: Vault, others: Others, creds: Credentials, n: nat, k: nat) {
    !Denied(server(k)) || vault(k).Unavailable? || vault(k).credentials == AtAnswer(vault, others, creds, n, k)
  }

  ghost predicate FirstStop(server: Server, vault: Vault, others: Others, creds: Credentials, n: nat, stop: nat) {
    && n <= stop && StopsAt(server, vault, others, creds, n, stop)
    && forall k | n <= k < stop :: !StopsAt(server, vault, others, creds, n, k)
  }

  /** One call, for every server, Vault and interference with which it ends at all. */
  method DoHTTPAction(ep: Endpoint, server: Server, vault: Vault, others: Others, n: nat, ghost stop: nat) returns (result: Result, sent: nat)
    requires FirstStop(server, vault, others, ep.credentials, n, stop)
    modifies ep
    ensures sent == stop - n + 1
    ensures result == Classify(server(stop), vault(stop))
    ensures forall s: int :: result == Success(s) <==> server(stop) == Answer(s, true) && s != 401 && s != 403
    ensures forall s: int :: result == UnreadableBody(s) <==> server(stop) == Answer(s, false) && s != 401 && s != 403
    ensures result == RequestFailed <==> server(stop) == NoReply
    ensures forall s: int :: result == RefreshFailed(s) <==> AnsweredWith(server(stop), s) && s in {401, 403} && vault(stop) == Unavailable
    ensures forall s: int :: result == CredentialsUnchanged(s) <==> AnsweredWith(server(stop), s) && s in {401, 403} && vault(stop) != Unavailable
    ensures ep.credentials == AtAnswer(vault, others, old(ep.credentials), n, stop)
    decreases stop - n
  {
    ghost var creds := ep.credentials;
    var reply := server(n);
    if others(n).Some? {
      ep.credentials := others(n).value;   // another goroutine
    }
    if Denied(reply) && vault(n).Found? {
      var previous := ep.credentials;
      ep.credentials := vault(n).credentials;
      if ep.credentials != previous {
        ShiftStop(server, vault, others, creds, n, stop);
        var more;
        result, more := DoHTTPAction(ep, server, vault, others, n + 1, stop);
        sent := more + 1;
        return;
      }
    }
    assert StopsAt(server, vault, others, creds, n, n);
    result, sent := Classify(reply, vault(n)), 1;
  }

  class Endpoint {
    var credentials: Credentials
  }

  /** After a refresh the rest of the call stops where the whole call does. */
  lemma ShiftStop(server: Server, vault: Vault, others: Others, creds: Credentials, n: nat, stop: nat)
    requires FirstStop(server, vault, others, creds, n, stop) && vault(n).Found? && !StopsAt(server, vault, others, creds, n, n)
    ensures FirstStop(server, vault, others, vault(n).credentials, n + 1, stop)
    ensures InUse(vault, vault(n).credentials, n + 1, stop) == InUse(vault, creds, n, stop)
  {
    assert n < stop;
    ShiftStopsAt(server, vault, others, creds, n, stop);
    var m: nat, refreshed := n + 1, vault(n).credentials;
    forall k: nat | m <= k < stop ensures !StopsAt(server, vault, others, refreshed, m, k) {
      ShiftStopsAt(server, vault, others, creds, n, k);
    }
  }

  lemma ShiftStopsAt(server: Server, vault: Vault, others: Others, creds: Credentials, n: nat, k: nat)
    requires n < k && vault(n).Found?
    ensures InUse(vault, vault(n).credentials, n + 1, k) == InUse(vault, creds, n, k)
    ensures StopsAt(server, vault, others, vault(n).credentials, n + 1, k) == StopsAt(server, vault, others, creds, n, k)
  {
  }

  // ------------------------------------------------ exactly when, and after how many requests

  lemma {:induction false} EndsAtFirstStop(server: Server, vault: Vault, others: Others, creds: Credentials, n: nat, stop: nat, fuel: nat)
    requires FirstStop(server, vault, others, creds, n, stop)
    ensures Attempt(server, vault, others, creds, n, fuel) ==
              if stop - n < fuel
              then Some(Call(Classify(server(stop), vault(stop)), stop - n + 1, AtAnswer(vault, others, creds, n, stop)))
              else None
    decreases fuel
  {
    if fuel == 0 || StopsAt(server, vault, others, creds, n, n) {
    } else {
      ShiftStop(server, vault, others, creds, n, stop);
      EndsAtFirstStop(server, vault, others, vault(n).credentials, n + 1, stop, fuel - 1);
    }
  }

  lemma {:induction false} EndsOnlyAtStop(server: Server, vault: Vault, others: Others, creds: Credentials, n: nat, fuel: nat)
    requires Attempt(server, vault, others, creds, n, fuel).Some?
    ensures var sent := Attempt(server, vault, others, creds, n, fuel).value.sent;
            sent > 0 && FirstStop(server, vault, others, creds, n, n + sent - 1)
    decreases fuel
  {
    if StopsAt(server, vault, others, creds, n, n) {
    } else {
      var creds' := vault(n).credentials;
      EndsOnlyAtStop(server, vault, others, creds', n + 1, fuel - 1);
      var stop := n + Attempt(server, vault, others, creds, n, fuel).value.sent - 1;
      ShiftStopsAt(server, vault, others, creds, n, stop);
      forall k: nat | n <= k < stop ensures !StopsAt(server, vault, others, creds, n, k) {
        if n < k {
          ShiftStopsAt(server, vault, others, creds, n, k);
        }
      }
    }
  }

  /** A call ends after exactly `m` + 1 requests if and only if request `m` is the first that is not answered
      401 or 403, or whose lookup fails, or whose lookup gives what the record holds already. */
  lemma EndsExactly(server: Server, vault: Vault, others: Others, creds: Credentials, m: nat)
    ensures (exists fuel: nat :: var r := Attempt(server, vault, others, creds, 0, fuel); r.Some? && r.value.sent == m + 1)
            <==> FirstStop(server, vault, others, creds, 0, m)
  {
    if fuel: nat :| var r := Attempt(server, vault, others, creds, 0, fuel); r.Some? && r.value.sent == m + 1 {
      EndsOnlyAtStop(server, vault, others, creds, 0, fuel);
    }
    if FirstStop(server, vault, others, creds, 0, m) {
      EndsAtFirstStop(server, vault, others, creds, 0, m, m + 1);
      assert Attempt(server, vault, others, creds, 0, m + 1).Some?;
    }
  }

  lemma {:induction false} HasFirst(server: Server, vault: Vault, others: Others, creds: Credentials, n: nat, k: nat, from: nat)
    requires n <= from <= k && StopsAt(server, vault, others, creds, n, k)
    requires forall j | n <= j < from :: !StopsAt(server, vault, others, creds, n, j)
    ensures exists stop: nat :: stop <= k && FirstStop(server, vault, others, creds, n, stop)
    decreases k - from
  {
    if StopsAt(server, vault, others, creds, n, from) {
      assert FirstStop(server, vault, others, creds, n, from);
    } else {
      HasFirst(server, vault, others, creds, n, k, from + 1);
    }
  }

  /** A call ends if and only if some request of its sequence can be the last one. */
  lemma EndsIff(server: Server, vault: Vault, others: Others, creds: Credentials)
    ensures (exists fuel: nat :: Attempt(server, vault, others, creds, 0, fuel).Some?) <==> exists k: nat :: StopsAt(server, vault, others, creds, 0, k)
  {
    if fuel: nat :| Attempt(server, vault, others, creds, 0, fuel).Some? {
      EndsOnlyAtStop(server, vault, others, creds, 0, fuel);
    }
    if k: nat :| StopsAt(server, vault, others, creds, 0, k) {
      HasFirst(server, vault, others, creds, 0, k, 0);
      var stop: nat :| stop <= k && FirstStop(server, vault, others, creds, 0, stop);
      EndsAtFirstStop(server, vault, others, creds, 0, stop, stop + 1);
    }
  }

  /** A refused call gives up at once, with credentials that were never tried, if and only if another goroutine has
      refreshed the record in the meantime. */
  lemma GivesUpIffRefreshedElsewhere(server: Server, vault: Vault, others: Others, creds: Credentials)
    requires Denied(server(0)) && vault(0).Found? && vault(0).credentials != creds
    ensures Attempt(server, vault, others, creds, 0, 1) == Some(Call(CredentialsUnchanged(server(0).status), 1, vault(0).credentials))
            <==> others(0) == Some(vault(0).credentials)
  {
    assert Attempt(server, vault, others, vault(0).credentials, 1, 0) == None;
  }

  // ------------------------------------------------ bounds from Vault's history

  /** Changes in the sequence: `before`, answer n, ..., answer m - 1. */
  function Changes(vault: Vault, before: VaultAnswer, n: nat, m: nat): nat
    decreases m - n
  {
    if n >= m then 0
    else (if vault(n) == before then 0 else 1) + Changes(vault, vault(n), n + 1, m)
  }

  /** Requests from n up to m - 1 during which others wrote the record. */
  function Writes(others: Others, n: nat, m: nat): nat
    decreases m - n
  {
    if n >= m then 0 else (if others(n).Some? then 1 else 0) + Writes(others, n + 1, m)
  }

  lemma {:induction false} BothGrow(vault: Vault, others: Others, before: VaultAnswer, n: nat, m: nat, m': nat)
    requires m <= m'
    ensures Changes(vault, before, n, m) <= Changes(vault, before, n, m')
    ensures Writes(others, n, m) <= Writes(others, n, m')
    decreases m - n
  {
    if n >= m {
    } else {
      BothGrow(vault, others, vault(n), n + 1, m, m');
    }
  }

  /** Every retry is a change of Vault's answer or follows a write of others: the requests are at most one more than
      both together up to the last lookup, and without such writes exactly one more than the changes. */
  lemma {:induction false} RequestsAreBounded(server: Server, vault: Vault, others: Others, creds: Credentials, n: nat, stop: nat, m: nat)
    requires FirstStop(server, vault, others, creds, n, stop) && stop <= m
    ensures stop - n <= Changes(vault, Found(creds), n, stop) + Writes(others, n, stop)
    ensures stop - n <= Changes(vault, Found(creds), n, m) + Writes(others, n, m)
    ensures Writes(others, n, stop) == 0 ==> stop - n == Changes(vault, Found(creds), n, stop)
    decreases stop - n
  {
    BothGrow(vault, others, Found(creds), n, stop, m);
    if n == stop {
    } else {
      assert !StopsAt(server, vault, others, creds, n, n);
      ShiftStop(server, vault, others, creds, n, stop);
      RequestsAreBounded(server, vault, others, vault(n).credentials, n + 1, stop, m);
    }
  }

  /** From lookup `stable` on, Vault always gives the same answer and nobody else writes the record. */
  ghost predicate Settles(vault: Vault, others: Others, stable: nat) {
    forall k: nat | k >= stable :: vault(k) == vault(stable) && others(k).None?
  }

  /** When Vault and the other goroutines settle every call ends, after at most one request more than Vault's answers
      change and others write. */
  lemma SettledVaultEnds(server: Server, vault: Vault, others: Others, creds: Credentials, stable: nat)
    requires Settles(vault, others, stable)
    ensures exists stop: nat :: FirstStop(server, vault, others, creds, 0, stop) &&
                                stop <= Changes(vault, Found(creds), 0, stable + 1) + Writes(others, 0, stable + 1)
  {
    assert vault(stable + 1) == vault(stable) && others(stable + 1).None?;
    if vault(stable).Found? {
      assert StopsAt(server, vault, others, creds, 0, stable + 1);
      HasFirst(server, vault, others, creds, 0, stable + 1, 0);
    } else {
      assert StopsAt(server, vault, others, creds, 0, stable);
      HasFirst(server, vault, others, creds, 0, stable, 0);
    }
    var stop: nat :| stop <= stable + 1 && FirstStop(server, vault, others, creds, 0, stop);
    RequestsAreBounded(server, vault, others, creds, 0, stop, stable + 1);
  }

  /** With a constant Vault and no interference at most two requests are sent, the second with Vault's credentials. */
  lemma ConstantVault(server: Server, vault: Vault, others: Others, creds: Credentials)
    requires Settles(vault, others, 0)
    ensures exists stop: nat :: FirstStop(server, vault, others, creds, 0, stop) && stop <= 1
                                && (stop == 1 ==> vault(0) == Found(InUse(vault, creds, 0, 1)))
  {
    SettledVaultEnds(server, vault, others, creds, 0);
    var stop: nat :| FirstStop(server, vault, others, creds, 0, stop) && stop <= Changes(vault, Found(creds), 0, 1) + Writes(others, 0, 1);
    assert Writes(others, 0, 1) == 0;
    assert stop <= 1;
    if stop == 1 {
      assert !StopsAt(server, vault, others, creds, 0, 0);
    }
  }

  /** A retry never uses what the record held when the previous request was refused; without interference these are
      the credentials just refused. */
  lemma RequestsDiffer(server: Server, vault: Vault, others: Others, creds: Credentials, stop: nat)
    requires FirstStop(server, vault, others, creds, 0, stop)
    ensures forall k: nat | k < stop :: InUse(vault, creds, 0, k + 1) != AtAnswer(vault, others, creds, 0, k)
    ensures Writes(others, 0, stop) == 0 ==> StutterFree(seq(stop + 1, k requires 0 <= k <= stop => InUse(vault, creds, 0, k)))
  {
    forall k: nat | k < stop ensures InUse(vault, creds, 0, k + 1) != AtAnswer(vault, others, creds, 0, k) {
      assert !StopsAt(server, vault, others, creds, 0, k);
    }
    if Writes(others, 0, stop) == 0 {
      NoWrites(others, 0, stop);
      var rs := seq(stop + 1, k requires 0 <= k <= stop => InUse(vault, creds, 0, k));
      forall i | 0 <= i < |rs| - 1 ensures rs[i] != rs[i + 1] {
        assert AtAnswer(vault, others, creds, 0, i) == InUse(vault, creds, 0, i);
      }
    }
  }

  lemma {:induction false} NoWrites(others: Others, n: nat, m: nat)
    requires Writes(others, n, m) == 0
    ensures forall k: nat | n <= k < m :: others(k).None?
    decreases m - n
  {
    if n >= m {
    } else {
      NoWrites(others, n + 1, m);
    }
  }

  /** The recursion need not end: with a server that always refuses and a Vault that alternates between two
      accounts, no number of requests is enough, even without interference. */
  lemma AlternatingVaultNeverStops(a: Credentials, b: Credentials, fuel: nat)
    requires a != b
    ensures var server := (k: nat) => Answer(401, true);
            var vault := (k: nat) => if k % 2 == 0 then Found(b) else Found(a);
            var others := (k: nat) => None;
            Attempt(server, vault, others, a, 0, fuel) == None
  {
    var server := (k: nat) => Answer(401, true);
    var vault := (k: nat) => if k % 2 == 0 then Found(b) else Found(a);
    var others: Others := (k: nat) => None;
    forall k: nat ensures !StopsAt(server, vault, others, a, 0, k) {
      assert k > 0 ==> (k - 1) % 2 != k % 2;
    }
    if Attempt(server, vault, others, a, 0, fuel).Some? {
      EndsOnlyAtStop(server, vault, others, a, 0, fuel);
    }
  }
}
