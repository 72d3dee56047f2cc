/**
 * Plain JavaScript objects as the payload builder sees them: a mapping of own properties
 * together with the order in which the engine enumerates them.
 */
module JsObject {
  import opened Strings

  datatype Value = Num(n: real) | Text(text: string) | Texts(items: seq<string>)

  datatype Obj = Obj(order: seq<string>, at: map<string, Value>) {
    ghost predicate Valid()
    {
      && Distinct(order)
      && (forall k :: k in order <==> k in at)
      && Ordinary(order)
    }
  }

  const EMPTY: Obj := Obj([], map[])

  /** What a caller can pass: JavaScript knows no other objects. */
  type Plain = o: Obj | o.Valid() witness EMPTY

  function Single(key: string, value: Value): Obj { Obj([key], map[key := value]) }

  /** Assigning to this key sets the prototype and creates no own property. */
  const PROTO := "__proto__"

  /** Canonical array indices are enumerated first, in numeric order. */
  predicate IsIndex(k: string)
  {
    && k != []
    && (forall i :: 0 <= i < |k| ==> '0' <= k[i] <= '9')
    && (|k| > 1 ==> k[0] != '0')
    && IndexValue(k) < 0xFFFF_FFFF
  }

  function IndexValue(k: string): nat
  {
    if k == [] then 0
    else
      var c := k[|k| - 1];
      10 * IndexValue(k[..|k| - 1]) + (if '0' <= c <= '9' then c as int - '0' as int else 0)
  }

  /** `a` may stand before `b` in an enumeration. */
  predicate MayPrecede(a: string, b: string)
  {
    IsIndex(b) ==> IsIndex(a) && IndexValue(a) <= IndexValue(b)
  }

  ghost predicate Ordinary(order: seq<string>)
  {
    forall i, j :: 0 <= i < j < |order| ==> MayPrecede(order[i], order[j])
  }

  /** Where a newly created key goes in the enumeration. */
  function Place(order: seq<string>, k: string): (r: seq<string>)
    ensures multiset(r) == multiset(order) + multiset{k}
  {
    if order == [] then [k]
    else
      assert order == order[..|order| - 1] + [order[|order| - 1]];
      if MayPrecede(order[|order| - 1], k) then order + [k]
      else Place(order[..|order| - 1], k) + [order[|order| - 1]]
  }

  /** `o[k] = v`. */
  function Assign(o: Obj, k: string, v: Value): Obj
  {
    if k == PROTO then o
    else Obj(if k in o.at then o.order else Place(o.order, k), o.at[k := v])
  }

  lemma {:induction false} PlaceOrdinary(order: seq<string>, k: string)
    requires Ordinary(order)
    ensures Ordinary(Place(order, k))
  {
    if order != [] {
      var n := |order| - 1;
      var last := order[n];
      if MayPrecede(last, k) {
        forall i | 0 <= i < |order| ensures MayPrecede(order[i], k) {
          assert i < n ==> MayPrecede(order[i], order[n]);
        }
      } else {
        PlaceOrdinary(order[..n], k);
        var front := Place(order[..n], k);
        forall i | 0 <= i < |front| ensures MayPrecede(front[i], last) {
          assert front[i] in multiset(front);
          assert front[i] == k || front[i] in multiset(order[..n]);
        }
      }
    }
  }

  lemma PlaceDistinct(order: seq<string>, k: string)
    requires Distinct(order) && k !in order
    ensures Distinct(Place(order, k))
    ensures forall x :: x in Place(order, k) <==> x in order || x == k
  {
    var r := Place(order, k);
    assert forall x :: x in r <==> x in multiset(r);
    assert forall x :: x in order <==> x in multiset(order);
    DistinctCounts(order);
    forall x ensures multiset(r)[x] <= 1 {
      assert multiset(r)[x] == multiset(order)[x] + multiset{k}[x];
    }
    CountsDistinct(r);
  }

  lemma {:induction false} DistinctCounts(s: seq<string>)
    requires Distinct(s)
    ensures forall x :: multiset(s)[x] <= 1
  {
    if s != [] {
      var n := |s| - 1;
      DistinctCounts(s[..n]);
      assert s == s[..n] + [s[n]];
      assert s[n] !in s[..n];
    }
  }

  lemma CountsDistinct(s: seq<string>)
    requires forall x :: multiset(s)[x] <= 1
    ensures Distinct(s)
  {
    forall i, j | 0 <= i < j < |s| ensures s[i] != s[j] {
      assert s == s[..i] + [s[i]] + s[i + 1..j] + [s[j]] + s[j + 1..];
      assert s[i] == s[j] ==> multiset(s)[s[i]] >= 2;
    }
  }

  lemma AssignValid(o: Obj, k: string, v: Value)
    requires o.Valid()
    ensures Assign(o, k, v).Valid()
  {
    if k != PROTO && k !in o.at {
      PlaceOrdinary(o.order, k);
      PlaceDistinct(o.order, k);
    }
  }

  // ----- the canonical copy -----

  /** The copy made by assigning the listed keys of `o`, in that order, to a fresh object. */
  function Copied(o: Obj, keys: seq<string>): Obj
    requires forall k :: k in keys ==> k in o.at
  {
    if keys == [] then EMPTY
    else
      var last := keys[|keys| - 1];
      Assign(Copied(o, keys[..|keys| - 1]), last, o.at[last])
  }

  function SortKeys(o: Obj): Obj
    requires o.Valid()
  {
    assert forall k :: k in Sort(o.order) <==> k in o.at by {
      forall k ensures k in Sort(o.order) <==> k in o.at { SortedKeys(o, k); }
    }
    Copied(o, Sort(o.order))
  }

  lemma {:induction false} CopiedMapping(o: Obj, keys: seq<string>)
    requires forall k :: k in keys ==> k in o.at
    ensures Copied(o, keys).Valid()
    ensures forall k :: k in Copied(o, keys).at <==> k in keys && k != PROTO
    ensures forall k :: k in Copied(o, keys).at ==> Copied(o, keys).at[k] == o.at[k]
  {
    if keys != [] {
      var n := |keys| - 1;
      CopiedMapping(o, keys[..n]);
      AssignValid(Copied(o, keys[..n]), keys[n], o.at[keys[n]]);
      assert keys == keys[..n] + [keys[n]];
    }
  }

  lemma SortedKeys(o: Obj, k: string)
    requires o.Valid()
    ensures k in Sort(o.order) <==> k in o.at
  {
    SameElements(Sort(o.order), o.order, k);
  }

  /** `k` is bound alike by both objects. */
  predicate SameProperty(a: Obj, b: Obj, k: string)
  {
    (k in a.at <==> k in b.at) && (k in a.at ==> a.at[k] == b.at[k])
  }

  /**
   * The canonical copy keeps every property, except that one literally named `__proto__` is lost: it has
   * the same properties if and only if there is no such one.
   */
  lemma SortKeysMapping(o: Obj)
    requires o.Valid()
    ensures SortKeys(o).Valid() && PROTO !in SortKeys(o).at
    ensures forall k :: k != PROTO ==> SameProperty(SortKeys(o), o, k)
    ensures SortKeys(o).at == o.at <==> PROTO !in o.at
  {
    hide Copied, Sort, Ordinary, Distinct;
    forall k ensures k in Sort(o.order) <==> k in o.at { SortedKeys(o, k); }
    CopiedMapping(o, Sort(o.order));
    if PROTO !in o.at { SameMapping(SortKeys(o), o); }
  }

  lemma SameMapping(a: Obj, b: Obj)
    requires forall k :: k != PROTO ==> SameProperty(a, b, k)
    requires PROTO !in a.at && PROTO !in b.at
    ensures a.at == b.at
  {
    forall k ensures k in a.at <==> k in b.at { assert k != PROTO ==> SameProperty(a, b, k); }
    forall k | k in a.at ensures a.at[k] == b.at[k] { assert SameProperty(a, b, k); }
  }

  lemma {:induction false} CopiedAgree(a: Obj, b: Obj, keys: seq<string>)
    requires forall k :: k in keys ==> k in a.at && k in b.at && a.at[k] == b.at[k]
    ensures Copied(a, keys) == Copied(b, keys)
  {
    if keys != [] {
      CopiedAgree(a, b, keys[..|keys| - 1]);
    }
  }

  function Without(keys: seq<string>, x: string): (r: seq<string>)
    ensures forall k :: k in r <==> k in keys && k != x
  {
    if keys == [] then []
    else
      var rest := Without(keys[..|keys| - 1], x);
      if keys[|keys| - 1] == x then rest else rest + [keys[|keys| - 1]]
  }

  lemma {:induction false} CopiedWithoutProto(o: Obj, keys: seq<string>)
    requires forall k :: k in keys ==> k in o.at
    ensures Copied(o, keys) == Copied(o, Without(keys, PROTO))
  {
    if keys != [] {
      var n := |keys| - 1;
      CopiedWithoutProto(o, keys[..n]);
      var rest := Without(keys[..n], PROTO);
      assert (rest + [keys[n]])[..|rest|] == rest;
    }
  }

  lemma {:induction false} WithoutAscending(keys: seq<string>, x: string)
    requires Ascending(keys)
    ensures Ascending(Without(keys, x))
  {
    if keys != [] {
      var n := |keys| - 1;
      WithoutAscending(keys[..n], x);
      var rest := Without(keys[..n], x);
      forall i | 0 <= i < |rest| ensures Below(rest[i], keys[n]) {
        assert rest[i] in keys[..n];
      }
    }
  }

  lemma SortKeysWithoutProto(o: Obj)
    requires o.Valid()
    ensures Ascending(Without(Sort(o.order), PROTO))
    ensures forall k :: k in Without(Sort(o.order), PROTO) <==> k in o.at && k != PROTO
    ensures SortKeys(o) == Copied(o, Without(Sort(o.order), PROTO))
  {
    forall k ensures k in Sort(o.order) <==> k in o.at { SortedKeys(o, k); }
    CopiedWithoutProto(o, Sort(o.order));
    SortAscending(o.order);
    WithoutAscending(Sort(o.order), PROTO);
  }

  /**
   * The canonical copy is a function of the mapping alone: however two callers ordered the same
   * properties, the copies are identical, enumeration order included.
   */
  lemma SortKeysCanonical(a: Obj, b: Obj)
    requires a.Valid() && b.Valid()
    requires forall k :: k != PROTO ==> SameProperty(a, b, k)
    ensures SortKeys(a) == SortKeys(b)
  {
    SortKeysWithoutProto(a);
    SortKeysWithoutProto(b);
    var u, v := Without(Sort(a.order), PROTO), Without(Sort(b.order), PROTO);
    forall k ensures k in u <==> k in v {
      assert k != PROTO ==> SameProperty(a, b, k);
    }
    AscendingUnique(u, v);
    forall k | k in u ensures k in b.at && a.at[k] == b.at[k] {
      assert SameProperty(a, b, k);
    }
    CopiedAgree(a, b, u);
  }

  /** Canonicalising twice changes nothing. */
  lemma SortKeysIdempotent(o: Obj)
    requires o.Valid()
    ensures SortKeys(o).Valid() && SortKeys(SortKeys(o)) == SortKeys(o)
  {
    SortKeysMapping(o);
    SortKeysCanonical(SortKeys(o), o);
  }

  lemma {:induction false} PlaceAtEnd(order: seq<string>, k: string)
    requires Ordinary(order + [k])
    ensures Place(order, k) == order + [k]
  {
    if order != [] {
      assert MayPrecede((order + [k])[|order| - 1], (order + [k])[|order|]);
    }
  }

  lemma {:induction false} CopiedKeepsOrder(o: Obj, keys: seq<string>)
    requires forall k :: k in keys ==> k in o.at
    requires Distinct(keys) && Ordinary(keys) && PROTO !in keys
    ensures Copied(o, keys).order == keys
  {
    if keys != [] {
      var n := |keys| - 1;
      CopiedKeepsOrder(o, keys[..n]);
      CopiedMapping(o, keys[..n]);
      assert keys[n] !in keys[..n];
      assert keys[..n] + [keys[n]] == keys;
      PlaceAtEnd(keys[..n], keys[n]);
    }
  }

  /** The keys the copy has, in alphabetical order. */
  function CopiedKeys(o: Obj): seq<string> { Without(Sort(o.order), PROTO) }

  /**
   * The source calls the copy alphabetically sorted. It is if and only if the alphabetical order of its
   * keys is also an order the engine can enumerate, that is, when every integer-like key sorts before
   * every other key and integer-like keys sort numerically.
   */
  lemma SortKeysAlphabeticalIff(o: Obj)
    requires o.Valid()
    ensures Ascending(SortKeys(o).order) <==> Ordinary(CopiedKeys(o))
  {
    hide Sort, MayPrecede, Below;
    SortKeysMapping(o);
    SortKeysWithoutProto(o);
    var keys, copy := CopiedKeys(o), SortKeys(o);
    forall k ensures k in copy.order <==> k in keys { assert SameProperty(copy, o, k) || k == PROTO; }
    if Ascending(copy.order) {
      AscendingUnique(copy.order, keys);
    }
    if Ordinary(keys) {
      AscendingDistinct(keys);
      CopiedKeepsOrder(o, keys);
    }
  }

  lemma AscendingDistinct(keys: seq<string>)
    requires Ascending(keys)
    ensures Distinct(keys)
  {
    forall i, j | 0 <= i < j < |keys| ensures keys[i] != keys[j] { BelowTotal(keys[i], keys[j]); }
  }

  lemma SortTwo(a: string, b: string)
    requires Below(b, a)
    ensures Sort([a, b]) == [b, a]
  {
    BelowTotal(a, b);
    assert [a, b][..1] == [a] && [a][..0] == [];
    assert Sort([a]) == [a];
  }

  lemma NineAndTen()
    ensures MayPrecede("9", "10") && !MayPrecede("10", "9")
  {
    assert IndexValue("9") == 9 by { assert "9"[..0] == ""; }
    assert IndexValue("10") == 10 by { assert "10"[..1] == "1" && "1"[..0] == ""; }
  }

  /** The keys "10" and "9" come back in numeric, not alphabetical, order. */
  lemma SortKeysNotAlphabetical(o: Obj)
    requires o.order == NINE_TEN && (forall k :: k in o.at <==> k in NINE_TEN)
    ensures o.Valid() && !Ascending(SortKeys(o).order)
  {
    hide SortKeys, CopiedKeys, MayPrecede, Below;
    var nine, ten := "9", "10";
    assert o.Valid() by { NineAndTen(); assert nine[0] != ten[0]; }
    SortedNineAndTen(o);
    NineAndTen();
    FirstTwoOrdinary(CopiedKeys(o));
    SortKeysAlphabeticalIff(o);
  }

  lemma FirstTwoOrdinary(keys: seq<string>)
    requires |keys| >= 2
    ensures Ordinary(keys) ==> MayPrecede(keys[0], keys[1])
  {
  }

  const NINE_TEN: seq<string> := ["9", "10"]

  lemma SortedNineAndTen(o: Obj)
    requires o.order == ["9", "10"]
    ensures CopiedKeys(o) == ["10", "9"]
  {
    hide Sort;
    var nine, ten := "9", "10";
    assert Below(ten, nine) && PROTO[0] != nine[0] && PROTO[0] != ten[0];
    SortTwo(nine, ten);
    WithoutAbsent(Sort(o.order), PROTO);
  }

  lemma {:induction false} WithoutAbsent(keys: seq<string>, x: string)
    requires x !in keys
    ensures Without(keys, x) == keys
  {
    if keys != [] { WithoutAbsent(keys[..|keys| - 1], x); }
  }
}
