/** Strings as the source sorts and prints them: lexicographic order, sorted
    key lists (`sort.Strings`) and decimal numerals (`%d`). */
module Text {

  datatype Option<+T> = None | Some(value: T)

  /** Lexicographic order, as `sort.Strings` compares. */
  predicate Le(a: string, b: string) {
    a == [] || (b != [] && (a[0] < b[0] || (a[0] == b[0] && Le(a[1..], b[1..]))))
  }

  lemma {:induction false} LeTotal(a: string, b: string)
    ensures Le(a, b) || Le(b, a)
  {
    if a != [] && b != [] { LeTotal(a[1..], b[1..]); }
  }

  lemma {:induction false} LeAntisymmetric(a: string, b: string)
    requires Le(a, b) && Le(b, a)
    ensures a == b
  {
    if a != [] && b != [] {
      LeAntisymmetric(a[1..], b[1..]);
      assert a == [a[0]] + a[1..] && b == [b[0]] + b[1..];
    }
  }

  lemma {:induction false} LeTransitive(a: string, b: string, c: string)
    requires Le(a, b) && Le(b, c)
    ensures Le(a, c)
  {
    if a != [] && a[0] == b[0] && b[0] == c[0] { LeTransitive(a[1..], b[1..], c[1..]); }
  }

  predicate IsMin(m: string, s: set<string>) {
    m in s && forall x :: x in s ==> Le(m, x)
  }

  lemma {:induction false} MinExists(s: set<string>) returns (m: string)
    requires s != {}
    ensures IsMin(m, s)
    decreases |s|
  {
    m :| m in s;
    if s != {m} {
      var rest := s - {m};
      assert rest != {};
      var k := MinExists(rest);
      LeTotal(m, k);
      if Le(m, k) {
        forall x | x in s ensures Le(m, x) {
          LeTotal(m, m);
          if x != m { LeTransitive(m, k, x); }
        }
      } else {
        m := k;
      }
    } else {
      LeTotal(m, m);
    }
  }

  function Min(s: set<string>): (m: string)
    requires s != {}
    ensures IsMin(m, s)
  {
    assert exists m :: IsMin(m, s) by { var m := MinExists(s); }
    assert forall a, b :: IsMin(a, s) && IsMin(b, s) ==> a == b by {
      forall a, b | IsMin(a, s) && IsMin(b, s) ensures a == b { LeAntisymmetric(a, b); }
    }
    var m :| m in s && IsMin(m, s);
    m
  }

  ghost predicate Distinct<T>(s: seq<T>) {
    forall i, j :: 0 <= i < j < |s| ==> s[i] != s[j]
  }

  ghost predicate Sorted(s: seq<string>) {
    forall i, j :: 0 <= i < j < |s| ==> Le(s[i], s[j])
  }

  /** The elements of a set, in order: what collecting map keys and sorting them yields. */
  function SortedKeys(s: set<string>): (r: seq<string>)
    ensures forall x :: x in r <==> x in s
    ensures Distinct(r) && Sorted(r)
    ensures |r| == |s|
    decreases |s|
  {
    if s == {} then [] else
      var m := Min(s);
      [m] + SortedKeys(s - {m})
  }

  /** A sorted list without repetitions is determined by its elements, whatever
      order a map iteration produced them in. */
  lemma {:induction false} SortedUnique(a: seq<string>, b: seq<string>)
    requires Distinct(a) && Sorted(a) && Distinct(b) && Sorted(b)
    requires forall x :: x in a <==> x in b
    ensures a == b
  {
    if a == [] {
      assert forall i :: 0 <= i < |b| ==> b[i] in b;
    } else {
      assert a[0] in a;
      assert a[0] in b;
      var i :| 0 <= i < |b| && b[i] == a[0];
      assert b[0] in b;
      var j :| 0 <= j < |a| && a[j] == b[0];
      if a[0] != b[0] {
        LeAntisymmetric(a[0], b[0]);
      }
      assert a[0] == b[0];
      assert forall x :: x in a[1..] <==> x in a && x != a[0];
      assert forall x :: x in b[1..] <==> x in b && x != b[0];
      SortedUnique(a[1..], b[1..]);
      assert a == [a[0]] + a[1..] && b == [b[0]] + b[1..];
    }
  }

  function Digit(d: nat): (c: char)
    requires d < 10
  {
    "0123456789"[d]
  }

  /** The decimal numeral of a number, as `%d` prints it. */
  function Decimal(n: nat): (s: string) {
    if n < 10 then [Digit(n)] else Decimal(n / 10) + [Digit(n % 10)]
  }

  function Value(s: string): nat {
    if s == [] then 0
    else Value(s[..|s| - 1]) * 10 + DigitValue(s[|s| - 1])
  }

  function DigitValue(c: char): nat {
    if '0' <= c <= '9' then (c as int) - ('0' as int) else 0
  }

  lemma {:induction false} DecimalRoundTrip(n: nat)
    ensures Value(Decimal(n)) == n
  {
    if n < 10 {
      assert Decimal(n)[..0] == [];
    } else {
      DecimalRoundTrip(n / 10);
      var s := Decimal(n);
      assert s[..|s| - 1] == Decimal(n / 10);
    }
  }

  /** `%d` of any integer (strconv.Itoa). */
  function Itoa(n: int): (s: string) {
    if n < 0 then "-" + Decimal(-n) else Decimal(n)
  }

  lemma {:induction false} DecimalDigits(n: nat)
    ensures Decimal(n) != [] && '0' <= Decimal(n)[0] <= '9'
  {
    if n >= 10 { DecimalDigits(n / 10); }
  }

  function Abs(n: int): nat {
    if n < 0 then -n else n
  }

  lemma ItoaInjective(a: int, b: int)
    requires Itoa(a) == Itoa(b)
    ensures a == b
  {
    DecimalDigits(Abs(a));
    DecimalDigits(Abs(b));
    assert (a < 0) == (b < 0) by {
      assert a < 0 ==> Itoa(a)[0] == '-';
      assert b < 0 ==> Itoa(b)[0] == '-';
    }
    assert Decimal(Abs(a)) == (if a < 0 then Itoa(a)[1..] else Itoa(a));
    DecimalInjective(Abs(a), Abs(b));
  }

  lemma DecimalInjective(a: nat, b: nat)
    requires Decimal(a) == Decimal(b)
    ensures a == b
  {
    DecimalRoundTrip(a);
    DecimalRoundTrip(b);
  }
}
