/** The string operations of Go that the program relies on. */
module Text {

  /** strings.Split for a one-character separator: never empty. */
  function Split(s: string, sep: char): (parts: seq<string>)
    ensures |parts| >= 1
  {
    if s == [] then [""]
    else if s[0] == sep then [""] + Split(s[1..], sep)
    else
      var rest := Split(s[1..], sep);
      [[s[0]] + rest[0]] + rest[1..]
  }

  function LastSegment(s: string): string {
    var parts := Split(s, '/');
    parts[|parts| - 1]
  }

  /** strconv.Itoa on a natural number. */
  function Itoa(n: nat): string {
    if n < 10 then [Digit(n)] else Itoa(n / 10) + [Digit(n % 10)]
  }

  function Digit(d: nat): char
    requires d < 10
  {
    '0' + d as char
  }

  /** The number a string of digits denotes. */
  function Atoi(s: string): int {
    if s == [] then 0 else 10 * Atoi(s[..|s| - 1]) + (s[|s| - 1] as int - '0' as int)
  }

  /** Decimal notation: digits only, no leading zero, and the number can be read back. */
  lemma {:induction false} ItoaIsDecimal(n: nat)
    ensures Itoa(n) != [] && Atoi(Itoa(n)) == n
    ensures forall c | c in Itoa(n) :: '0' <= c <= '9'
    ensures Itoa(n)[0] == '0' ==> n == 0
  {
    if n < 10 {
      assert Itoa(n)[..0] == [];
    } else {
      ItoaIsDecimal(n / 10);
      var front := Itoa(n / 10);
      assert (front + [Digit(n % 10)])[..|front|] == front;
    }
  }

  /** A separator-free word is a single part. */
  lemma {:induction false} SplitWord(w: string, sep: char)
    requires sep !in w
    ensures Split(w, sep) == [w]
  {
    if w == [] {
    } else {
      SplitWord(w[1..], sep);
      assert w == [w[0]] + w[1..];
    }
  }

  function Push(x: char, sep: char, parts: seq<string>): seq<string>
    requires |parts| >= 1
  {
    if x == sep then [""] + parts else [[x] + parts[0]] + parts[1..]
  }

  lemma SplitCons(x: char, t: string, sep: char)
    ensures Split([x] + t, sep) == Push(x, sep, Split(t, sep))
  {
    assert ([x] + t)[1..] == t;
  }

  lemma PushAppend(x: char, sep: char, l: seq<string>, r: seq<string>)
    requires |l| >= 1
    ensures Push(x, sep, l + r) == Push(x, sep, l) + r
  {
    if x != sep {
      assert (l + r)[1..] == l[1..] + r;
    }
  }

  /** Splitting distributes over a separator. */
  lemma {:induction false} SplitJoin(a: string, b: string, sep: char)
    ensures Split(a + [sep] + b, sep) == Split(a, sep) + Split(b, sep)
  {
    if a == [] {
      SplitCons(sep, b, sep);
      assert a + [sep] + b == [sep] + b;
    } else {
      var t := a[1..];
      SplitJoin(t, b, sep);
      SplitCons(a[0], t + [sep] + b, sep);
      SplitCons(a[0], t, sep);
      PushAppend(a[0], sep, Split(t, sep), Split(b, sep));
      assert a + [sep] + b == [a[0]] + (t + [sep] + b);
      assert a == [a[0]] + t;
    }
  }
}
