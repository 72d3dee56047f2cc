/** The string primitives the services rely on: the order of sorted keys, sorting, digests and decimals. */
module Strings {

  // ----- the order of Array.prototype.sort on strings -----

  /**
   * Where a character stands when strings are compared by UTF-16 code units: a character outside the basic
   * plane is written with surrogates, which stand below the characters from U+E000 on.
   */
  function Rank(c: char): int
  {
    var n := c as int;
    if n < 0xD800 then n else if n < 0x10000 then n + 0x100000 else n - 0x2800
  }

  /** The UTF-16 code units of a character. */
  function Units(c: char): seq<int>
  {
    var n := c as int;
    if n < 0x10000 then [n] else [0xD800 + (n - 0x10000) / 0x400, 0xDC00 + (n - 0x10000) % 0x400]
  }

  /** Ranks compare as code units do. */
  lemma RankComparesUnits(a: char, b: char)
    ensures var u, v := Units(a), Units(b);
            Rank(a) < Rank(b) <==> u[0] < v[0] || (u[0] == v[0] && |u| == |v| == 2 && u[1] < v[1])
  {
    var m, n := a as int - 0x10000, b as int - 0x10000;
    assert m == (m / 0x400) * 0x400 + m % 0x400 && n == (n / 0x400) * 0x400 + n % 0x400;
  }

  lemma RankInjective(a: char, b: char)
    ensures Rank(a) == Rank(b) ==> a == b
  {
  }

  predicate Below(a: string, b: string)
  {
    b != [] && (a == [] || Rank(a[0]) < Rank(b[0]) || (a[0] == b[0] && Below(a[1..], b[1..])))
  }

  /** The code units of a string, one after the other. */
  function CodeUnits(s: string): seq<int> { if s == [] then [] else Units(s[0]) + CodeUnits(s[1..]) }

  predicate UnitsBelow(u: seq<int>, v: seq<int>)
  {
    v != [] && (u == [] || u[0] < v[0] || (u[0] == v[0] && UnitsBelow(u[1..], v[1..])))
  }

  lemma UnitsNonEmpty(c: char)
    ensures 1 <= |Units(c)| <= 2
  {
  }

  lemma UnitsBelowHead(u: seq<int>, v: seq<int>)
    requires u != [] && v != []
    ensures UnitsBelow(u, v) <==> u[0] < v[0] || (u[0] == v[0] && UnitsBelow(u[1..], v[1..]))
  {
  }

  /** A common prefix does not matter. */
  lemma {:induction false} UnitsBelowAfter(prefix: seq<int>, u: seq<int>, v: seq<int>)
    ensures UnitsBelow(prefix + u, prefix + v) <==> UnitsBelow(u, v)
  {
    if prefix == [] {
      assert prefix + u == u && prefix + v == v;
    } else {
      UnitsBelowAfter(prefix[1..], u, v);
      assert (prefix + u)[1..] == prefix[1..] + u && (prefix + v)[1..] == prefix[1..] + v;
    }
  }

  /** Different characters decide the order, whatever follows them. */
  lemma UnitsDecide(a: char, b: char, u: seq<int>, v: seq<int>)
    requires a != b
    ensures UnitsBelow(Units(a) + u, Units(b) + v) <==> Rank(a) < Rank(b)
  {
    RankComparesUnits(a, b);
    RankComparesUnits(b, a);
    if Rank(a) == Rank(b) { RankInjective(a, b); }
    var x, y := Units(a) + u, Units(b) + v;
    UnitsBelowHead(x, y);
    if x[0] == y[0] {
      assert |Units(a)| == 2 && |Units(b)| == 2;
      UnitsBelowHead(x[1..], y[1..]);
    }
  }

  /** The order of the sorts is the lexicographic order of the strings' UTF-16 code units. */
  lemma {:induction false} BelowComparesUnits(a: string, b: string)
    ensures Below(a, b) <==> UnitsBelow(CodeUnits(a), CodeUnits(b))
  {
    hide Units, Rank;
    if a != [] { UnitsNonEmpty(a[0]); }
    if b != [] { UnitsNonEmpty(b[0]); }
    if a != [] && b != [] {
      if a[0] == b[0] {
        BelowComparesUnits(a[1..], b[1..]);
        UnitsBelowAfter(Units(a[0]), CodeUnits(a[1..]), CodeUnits(b[1..]));
      } else {
        UnitsDecide(a[0], b[0], CodeUnits(a[1..]), CodeUnits(b[1..]));
      }
    }
  }

  lemma {:induction false} BelowTransitive(a: string, b: string, c: string)
    requires Below(a, b) && Below(b, c)
    ensures Below(a, c)
  {
    if a != [] && a[0] == b[0] && b[0] == c[0] {
      BelowTransitive(a[1..], b[1..], c[1..]);
    }
  }

  lemma {:induction false} BelowTotal(a: string, b: string)
    ensures a == b || Below(a, b) || Below(b, a)
    ensures !(Below(a, b) && Below(b, a))
    ensures !Below(a, a)
  {
    if a != [] {
      BelowTotal(a[1..], a[1..]);
      if b != [] && Rank(a[0]) == Rank(b[0]) { RankInjective(a[0], b[0]); }
      if b != [] && a[0] == b[0] {
        BelowTotal(a[1..], b[1..]);
        assert a == [a[0]] + a[1..] && b == [b[0]] + b[1..];
      }
    }
  }

  ghost predicate Ascending(s: seq<string>)
  {
    forall i, j :: 0 <= i < j < |s| ==> Below(s[i], s[j])
  }

  ghost predicate Distinct<T>(s: seq<T>)
  {
    forall i, j :: 0 <= i < j < |s| ==> s[i] != s[j]
  }

  function Insert(x: string, s: seq<string>): (r: seq<string>)
    ensures multiset(r) == multiset(s) + multiset{x}
  {
    if s == [] then [x]
    else if Below(x, s[0]) then [x] + s
    else
      var r := [s[0]] + Insert(x, s[1..]);
      assert s == [s[0]] + s[1..];
      r
  }

  /** The sorted copy of a list of keys. */
  function Sort(s: seq<string>): (r: seq<string>)
    ensures multiset(r) == multiset(s)
  {
    if s == [] then []
    else
      assert s == s[..|s| - 1] + [s[|s| - 1]];
      Insert(s[|s| - 1], Sort(s[..|s| - 1]))
  }

  lemma SameElements<T>(a: seq<T>, b: seq<T>, x: T)
    requires multiset(a) == multiset(b)
    ensures x in a <==> x in b
  {
    assert x in multiset(a) <==> x in multiset(b);
  }

  lemma {:induction false} InsertAscending(x: string, s: seq<string>)
    requires Ascending(s) && x !in s
    ensures Ascending(Insert(x, s))
  {
    if s != [] {
      BelowTotal(x, s[0]);
      if Below(x, s[0]) {
        forall j | 0 <= j < |s| ensures Below(x, s[j]) {
          if j > 0 { BelowTransitive(x, s[0], s[j]); }
        }
      } else {
        InsertAscending(x, s[1..]);
        InsertAbove(x, s[0], s[1..]);
      }
    }
  }

  /** Inserting above a lower bound keeps the bound. */
  lemma InsertAbove(x: string, low: string, s: seq<string>)
    requires Below(low, x) && forall j :: 0 <= j < |s| ==> Below(low, s[j])
    ensures forall j :: 0 <= j < |Insert(x, s)| ==> Below(low, Insert(x, s)[j])
  {
    var r := Insert(x, s);
    forall j | 0 <= j < |r| ensures Below(low, r[j]) {
      assert r[j] in multiset(r);
      assert r[j] == x || r[j] in multiset(s);
    }
  }

  /** Sorting distinct keys yields a strictly ascending list of the same keys. */
  lemma {:induction false} SortAscending(s: seq<string>)
    requires Distinct(s)
    ensures Ascending(Sort(s))
  {
    if s != [] {
      var n := |s| - 1;
      SortAscending(s[..n]);
      SameElements(Sort(s[..n]), s[..n], s[n]);
      InsertAscending(s[n], Sort(s[..n]));
    }
  }

  lemma AscendingTail(s: seq<string>, x: string)
    requires Ascending(s) && s != []
    ensures x in s[1..] <==> x in s && x != s[0]
  {
    if x in s[1..] {
      var i :| 0 <= i < |s[1..]| && s[1..][i] == x;
      BelowTotal(s[0], s[i + 1]);
    }
  }

  /** A strictly ascending list is determined by its elements: the sorted order is canonical. */
  lemma {:induction false} AscendingUnique(a: seq<string>, b: seq<string>)
    requires Ascending(a) && Ascending(b)
    requires forall x :: x in a <==> x in b
    ensures a == b
  {
    assert (a != [] ==> a[0] in b) && (b != [] ==> b[0] in a);
    if a != [] && b != [] {
      if a[0] != b[0] {
        AscendingTail(a, b[0]);
        AscendingTail(b, a[0]);
        var i :| 0 <= i < |b[1..]| && b[1..][i] == a[0];
        var j :| 0 <= j < |a[1..]| && a[1..][j] == b[0];
        assert Below(b[0], b[i + 1]) && Below(a[0], a[j + 1]);
        BelowTotal(a[0], b[0]);
      }
      forall x ensures x in a[1..] <==> x in b[1..] {
        AscendingTail(a, x);
        AscendingTail(b, x);
      }
      AscendingUnique(a[1..], b[1..]);
    }
  }

  /** Two lists of distinct keys with the same elements sort to the same list. */
  lemma SortCanonical(a: seq<string>, b: seq<string>)
    requires Distinct(a) && Distinct(b)
    requires forall x :: x in a <==> x in b
    ensures Sort(a) == Sort(b)
  {
    SortAscending(a);
    SortAscending(b);
    forall x ensures x in Sort(a) <==> x in Sort(b) {
      SameElements(Sort(a), a, x);
      SameElements(Sort(b), b, x);
    }
    AscendingUnique(Sort(a), Sort(b));
  }

  // ----- digests and decimals -----

  predicate IsHex(c: char) { '0' <= c <= '9' || 'a' <= c <= 'f' }

  predicate IsDigest(s: string) { |s| == 64 && forall i :: 0 <= i < |s| ==> IsHex(s[i]) }

  function Digit(d: nat): char
    requires d < 10
  {
    "0123456789"[d]
  }

  function Digits(n: nat): string
  {
    (if n < 10 then [] else Digits(n / 10)) + [Digit(n % 10)]
  }

  /** String(n) for an integer n. */
  function Decimal(n: int): string
  {
    if n < 0 then ['-'] + Digits(-n) else Digits(n)
  }

  predicate IsNumeral(c: char) { c == '-' || '0' <= c <= '9' }

  lemma {:induction false} DigitsShape(n: nat)
    ensures Digits(n) != []
    ensures forall i :: 0 <= i < |Digits(n)| ==> '0' <= Digits(n)[i] <= '9'
  {
    if n >= 10 { DigitsShape(n / 10); }
  }

  lemma DigitInjective(a: nat, b: nat)
    ensures a < 10 && b < 10 && Digit(a) == Digit(b) ==> a == b
  {
  }

  lemma DigitsParts(n: nat)
    ensures Digits(n) == (if n < 10 then [] else Digits(n / 10)) + [Digit(n % 10)]
  {
  }

  lemma {:induction false} DigitsInjective(a: nat, b: nat)
    requires Digits(a) == Digits(b)
    ensures a == b
  {
    hide Digits, Digit;
    DigitsParts(a);
    DigitsParts(b);
    var u, v := Digits(a), Digits(b);
    assert u[|u| - 1] == Digit(a % 10) && v[|v| - 1] == Digit(b % 10);
    DigitInjective(a % 10, b % 10);
    if a >= 10 { DigitsShape(a / 10); assert u[..|u| - 1] == Digits(a / 10); }
    if b >= 10 { DigitsShape(b / 10); assert v[..|v| - 1] == Digits(b / 10); }
    if a >= 10 && b >= 10 { DigitsInjective(a / 10, b / 10); }
    assert a == 10 * (a / 10) + a % 10 && b == 10 * (b / 10) + b % 10;
  }

  lemma DecimalShape(n: int)
    ensures Decimal(n) != []
    ensures forall i :: 0 <= i < |Decimal(n)| ==> IsNumeral(Decimal(n)[i])
  {
    DigitsShape(if n < 0 then -n else n);
  }

  lemma DecimalInjective(a: int, b: int)
    requires Decimal(a) == Decimal(b)
    ensures a == b
  {
    DigitsShape(if a < 0 then -a else a);
    DigitsShape(if b < 0 then -b else b);
    assert a < 0 <==> Decimal(a)[0] == '-';
    assert b < 0 <==> Decimal(b)[0] == '-';
    if a < 0 && b < 0 {
      assert Decimal(a)[1..] == Digits(-a) && Decimal(b)[1..] == Digits(-b);
      DigitsInjective(-a, -b);
    } else if a >= 0 && b >= 0 {
      DigitsInjective(a, b);
    }
  }

  function Pow10(k: nat): nat { if k == 0 then 1 else 10 * Pow10(k - 1) }

  lemma {:induction false} DigitsLength(n: nat, k: nat)
    requires n < Pow10(k) && 0 < k
    ensures |Digits(n)| <= k
  {
    if n >= 10 { DigitsLength(n / 10, k - 1); }
  }

  /** The range of the `integer` column that stores a sequence id. */
  predicate IsColumnInteger(n: int) { -0x8000_0000 <= n < 0x8000_0000 }

  lemma ColumnIntegerShort(n: int)
    requires IsColumnInteger(n)
    ensures |Decimal(n)| <= 11
  {
    assert Pow10(10) == 10_000_000_000 by {
      assert Pow10(5) == 100_000;
      assert Pow10(10) == 10 * 10 * 10 * 10 * 10 * Pow10(5);
    }
    DigitsLength(if n < 0 then -n else n, 10);
  }
}
