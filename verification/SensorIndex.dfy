/** Indexing of the mains sensors (internal/river_collector/hpepdu.go, `parseMainPayload`): the names
    of a Go map, collected in an arbitrary order, are sorted and numbered. */
module SensorIndex {
  import opened Basics

  // ------------------------------------------------ string order

  /** Go's byte-wise order on strings. */
  predicate Less(a: string, b: string)
    decreases |a|
  {
    b != [] && (a == [] || a[0] < b[0] || (a[0] == b[0] && Less(a[1..], b[1..])))
  }

  lemma {:induction false} LessIrreflexive(a: string)
    ensures !Less(a, a)
    decreases |a|
  {
    if a == [] {
    } else {
      LessIrreflexive(a[1..]);
    }
  }

  lemma {:induction false} LessTransitive(a: string, b: string, c: string)
    requires Less(a, b) && Less(b, c)
    ensures Less(a, c)
    decreases |a|
  {
    if a == [] || a[0] != b[0] || b[0] != c[0] {
    } else {
      LessTransitive(a[1..], b[1..], c[1..]);
    }
  }

  lemma {:induction false} LessTotal(a: string, b: string)
    ensures Less(a, b) || a == b || Less(b, a)
    decreases |a|
  {
    if a == [] || b == [] || a[0] != b[0] {
    } else {
      LessTotal(a[1..], b[1..]);
      assert a == [a[0]] + a[1..] && b == [b[0]] + b[1..];
    }
  }

  /** The order is lexicographic: at the first difference the smaller character decides, and a proper prefix
      comes first. */
  lemma {:induction false} LessIff(a: string, b: string)
    ensures Less(a, b) <==>
            exists k: nat :: k <= |a| && k < |b| && a[..k] == b[..k] && (k == |a| || (k < |a| && a[k] < b[k]))
    decreases |a|
  {
    if a == [] || b == [] {
      assert a == [] && b != [] ==> a[..0] == b[..0];
    } else {
      LessIff(a[1..], b[1..]);
      if a[0] == b[0] && Less(a[1..], b[1..]) {
        var k: nat :| k <= |a[1..]| && k < |b[1..]| && a[1..][..k] == b[1..][..k] && (k == |a[1..]| || (k < |a[1..]| && a[1..][k] < b[1..][k]));
        assert a[..k + 1] == [a[0]] + a[1..][..k] && b[..k + 1] == [b[0]] + b[1..][..k];
        assert k + 1 <= |a| && k + 1 < |b| && a[..k + 1] == b[..k + 1];
      } else if a[0] < b[0] {
        assert a[..0] == b[..0];
      }
      if k: nat :| k <= |a| && k < |b| && a[..k] == b[..k] && (k == |a| || (k < |a| && a[k] < b[k])) {
        if k > 0 {
          assert a[..k][0] == b[..k][0];
          assert a[1..][..k - 1] == a[..k][1..] && b[1..][..k - 1] == b[..k][1..];
        }
      }
    }
  }

  predicate Increasing(xs: seq<string>) {
    forall i, j | 0 <= i < j < |xs| :: Less(xs[i], xs[j])
  }

  // ------------------------------------------------ sorting distinct names

  /** An order in which the range loop may deliver the keys of a map. */
  predicate Enumerates(xs: seq<string>, keys: set<string>) {
    && Distinct(xs)
    && (forall x | x in xs :: x in keys)
    && (forall x | x in keys :: x in xs)
  }

  function Insert(x: string, xs: seq<string>): seq<string> {
    if xs == [] || Less(x, xs[0]) then [x] + xs else [xs[0]] + Insert(x, xs[1..])
  }

  function Sort(xs: seq<string>): seq<string> {
    if xs == [] then [] else Insert(xs[0], Sort(xs[1..]))
  }

  lemma {:induction false} InsertKeeps(x: string, xs: seq<string>)
    ensures forall y :: y in Insert(x, xs) <==> y == x || y in xs
  {
    if xs == [] || Less(x, xs[0]) {
    } else {
      InsertKeeps(x, xs[1..]);
      assert xs == [xs[0]] + xs[1..];
    }
  }

  lemma IncreasingCons(x: string, xs: seq<string>)
    requires Increasing(xs) && forall y | y in xs :: Less(x, y)
    ensures Increasing([x] + xs)
  {
    var all := [x] + xs;
    forall i, j | 0 <= i < j < |all| ensures Less(all[i], all[j]) {
      assert all[j] == xs[j - 1];
      if i > 0 {
        assert all[i] == xs[i - 1];
      }
    }
  }

  lemma {:induction false} InsertIncreasing(x: string, xs: seq<string>)
    requires Increasing(xs) && x !in xs
    ensures Increasing(Insert(x, xs))
  {
    if xs == [] {
    } else if Less(x, xs[0]) {
      forall y | y in xs ensures Less(x, y) {
        var j :| 0 <= j < |xs| && xs[j] == y;
        if j > 0 {
          LessTransitive(x, xs[0], y);
        }
      }
      IncreasingCons(x, xs);
    } else {
      var tail := xs[1..];
      assert forall i | 0 <= i < |tail| :: tail[i] == xs[i + 1];
      InsertIncreasing(x, tail);
      InsertKeeps(x, tail);
      LessTotal(x, xs[0]);
      assert xs[0] in xs;
      IncreasingCons(xs[0], Insert(x, tail));
    }
  }

  lemma {:induction false} SortSorts(xs: seq<string>, keys: set<string>)
    requires Enumerates(xs, keys)
    ensures Increasing(Sort(xs)) && forall x :: x in Sort(xs) <==> x in keys
  {
    if xs == [] {
    } else {
      var x, tail := xs[0], xs[1..];
      assert xs == [x] + tail;
      assert x !in tail;
      SortSorts(tail, keys - {x});
      InsertKeeps(x, Sort(tail));
      InsertIncreasing(x, Sort(tail));
    }
  }

  /** An increasing list is determined by its elements. */
  lemma {:induction false} IncreasingIsUnique(xs: seq<string>, ys: seq<string>)
    requires Increasing(xs) && Increasing(ys) && forall x :: x in xs <==> x in ys
    ensures xs == ys
    decreases |xs|
  {
    if xs == [] {
      assert forall i | 0 <= i < |ys| :: ys[i] in xs;
    } else {
      assert xs[0] in ys && ys != [];
      HeadIsLeast(xs, ys[0]);
      HeadIsLeast(ys, xs[0]);
      if Less(xs[0], ys[0]) && Less(ys[0], xs[0]) {
        LessTransitive(xs[0], ys[0], xs[0]);
        LessIrreflexive(xs[0]);
      }
      assert xs[0] == ys[0];
      TailElements(xs);
      TailElements(ys);
      IncreasingIsUnique(xs[1..], ys[1..]);
      assert xs == [xs[0]] + xs[1..] && ys == [ys[0]] + ys[1..];
    }
  }

  lemma HeadIsLeast(xs: seq<string>, y: string)
    requires Increasing(xs) && y in xs
    ensures xs[0] == y || Less(xs[0], y)
  {
  }

  lemma TailElements(xs: seq<string>)
    requires Increasing(xs) && xs != []
    ensures Increasing(xs[1..]) && forall x :: x in xs[1..] <==> x in xs && x != xs[0]
  {
    assert xs == [xs[0]] + xs[1..];
    forall x | x in xs[1..] ensures x != xs[0] {
      LessIrreflexive(xs[0]);
    }
  }

  // ------------------------------------------------ payloads

  /** Conversion of an index to a signed 16-bit integer. */
  function Int16(i: nat): int {
    (i + 32768) % 65536 - 32768
  }

  datatype Payload = Payload(name: string, index: int, value: string)

  function Number(names: seq<string>, readings: map<string, string>): (r: seq<Payload>)
    requires forall n | n in names :: n in readings
  {
    seq(|names|, i requires 0 <= i < |names| => Payload(names[i], Int16(i), readings[names[i]]))
  }

  /** The body of `parseMainPayload` for one sensor map, iterated in the order `order`. */
  method IndexSensors(readings: map<string, string>, order: seq<string>) returns (payloads: seq<Payload>)
    requires Enumerates(order, readings.Keys)
    ensures (forall n | n in Sort(order) :: n in readings) && payloads == Number(Sort(order), readings)
  {
    var names: seq<string> := [];
    for i := 0 to |order|
      invariant names == order[..i]
    {
      names := names + [order[i]];
    }
    assert names == order;
    SortSorts(order, readings.Keys);
    names := Sort(names);
    payloads := [];
    for index := 0 to |names|
      invariant payloads == Number(names[..index], readings)
    {
      assert names[index] in names;
      payloads := payloads + [Payload(names[index], Int16(index), readings[names[index]])];
    }
    assert names[..|names|] == names;
  }

  /** The payloads do not depend on the order in which Go iterates over the map. */
  lemma OrderDoesNotMatter(readings: map<string, string>, a: seq<string>, b: seq<string>)
    requires Enumerates(a, readings.Keys) && Enumerates(b, readings.Keys)
    ensures Sort(a) == Sort(b)
  {
    SortSorts(a, readings.Keys);
    SortSorts(b, readings.Keys);
    IncreasingIsUnique(Sort(a), Sort(b));
  }

  lemma EverySensorOnce(readings: map<string, string>, names: seq<string>, n: string)
    requires (forall x | x in names :: x in readings) && n in names
    ensures exists i | 0 <= i < |names| :: Number(names, readings)[i].name == n && Number(names, readings)[i].value == readings[n]
  {
    var i :| 0 <= i < |names| && names[i] == n;
    assert Number(names, readings)[i].name == n;
  }

  /** `x` is the signed 16-bit number congruent to `i`. */
  predicate Wraps(x: int, i: nat) {
    -32768 <= x < 32768 && (x - i) % 65536 == 0
  }

  lemma Int16IsExact(i: nat)
    ensures Int16(i) == i <==> i < 32768
    ensures Wraps(Int16(i), i)
  {
  }

  lemma IndexIsExact(readings: map<string, string>, names: seq<string>)
    requires forall x | x in names :: x in readings
    ensures (forall i | 0 <= i < |names| :: Number(names, readings)[i].index == i) <==> |names| <= 32768
    ensures forall i | 0 <= i < |names| :: Wraps(Number(names, readings)[i].index, i)
  {
    forall i | 0 <= i < |names|
      ensures Number(names, readings)[i].index == i <==> i < 32768
      ensures Wraps(Number(names, readings)[i].index, i)
    {
      Int16IsExact(i);
    }
    if |names| > 32768 {
      assert Number(names, readings)[32768].index != 32768;
    }
  }

  /** Every sensor is reported, in name order, with its position as index; the index is exact if and
      only if there are at most 32768 sensors. */
  lemma IndexIsPosition(readings: map<string, string>, order: seq<string>)
    requires Enumerates(order, readings.Keys)
    ensures forall n | n in Sort(order) :: n in readings
    ensures var ps := Number(Sort(order), readings);
            && (forall n | n in readings :: exists i | 0 <= i < |ps| :: ps[i].name == n && ps[i].value == readings[n])
            && (forall i, j | 0 <= i < j < |ps| :: Less(ps[i].name, ps[j].name))
            && ((forall i | 0 <= i < |ps| :: ps[i].index == i) <==> |ps| <= 32768)
            && (forall i | 0 <= i < |ps| :: Wraps(ps[i].index, i))
  {
    SortSorts(order, readings.Keys);
    var names := Sort(order);
    forall n | n in readings
      ensures exists i | 0 <= i < |names| :: Number(names, readings)[i].name == n && Number(names, readings)[i].value == readings[n]
    {
      EverySensorOnce(readings, names, n);
    }
    IndexIsExact(readings, names);
  }
}
