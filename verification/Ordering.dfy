/** Comparisons in the style of `Ord::cmp`, and what sorting and deduplicating by one gives. */
module Ordering {
  import opened Base

  datatype Order = Less | Equal | Greater {
    function Then(other: Order): Order {
      if this == Equal then other else this
    }

    function Flip(): Order {
      match this
      case Less => Greater
      case Equal => Equal
      case Greater => Less
    }
  }

  type Comparison<!T(!new)> = (T, T) -> Order

  /** Three comparisons of x with y, y with z and x with z that one total preorder can give. */
  predicate Consistent(xy: Order, yz: Order, xz: Order) {
    xy != Greater && yz != Greater ==> xz == xy.Then(yz)
  }

  ghost predicate Lawful<T(!new)>(cmp: Comparison<T>) {
    && (forall x, y :: cmp(x, y) == cmp(y, x).Flip())
    && (forall x, y, z :: Consistent(cmp(x, y), cmp(y, z), cmp(x, z)))
  }

  /** Only equal values compare equal. */
  ghost predicate Exact<T(!new)>(cmp: Comparison<T>) {
    forall x, y :: cmp(x, y) == Equal <==> x == y
  }

  function CompareNat(x: nat, y: nat): Order {
    if x < y then Less else if x == y then Equal else Greater
  }

  /** Strings compare by their first difference, as their UTF-8 bytes do. */
  function CompareStrings(x: string, y: string): Order {
    if x == [] && y == [] then Equal
    else if x == [] then Less
    else if y == [] then Greater
    else CompareNat(x[0] as nat, y[0] as nat).Then(CompareStrings(x[1..], y[1..]))
  }

  lemma {:induction false} StringsFlip(x: string, y: string)
    ensures CompareStrings(x, y) == CompareStrings(y, x).Flip()
    ensures CompareStrings(x, y) == Equal <==> x == y
  {
    if x != [] && y != [] {
      StringsFlip(x[1..], y[1..]);
      assert x == [x[0]] + x[1..] && y == [y[0]] + y[1..];
    }
  }

  lemma {:induction false} StringsConsistent(x: string, y: string, z: string)
    ensures Consistent(CompareStrings(x, y), CompareStrings(y, z), CompareStrings(x, z))
  {
    if x != [] && y != [] && z != [] {
      StringsConsistent(x[1..], y[1..], z[1..]);
    }
  }

  lemma StringsLawful()
    ensures Lawful(CompareStrings) && Exact(CompareStrings)
  {
    forall x, y
      ensures CompareStrings(x, y) == CompareStrings(y, x).Flip()
      ensures CompareStrings(x, y) == Equal <==> x == y
    {
      StringsFlip(x, y);
    }
    forall x, y, z ensures Consistent(CompareStrings(x, y), CompareStrings(y, z), CompareStrings(x, z)) {
      StringsConsistent(x, y, z);
    }
  }

  ghost predicate Sorted<T(!new)>(cmp: Comparison<T>, s: seq<T>) {
    forall i, j :: 0 <= i < j < |s| ==> cmp(s[i], s[j]) != Greater
  }

  ghost predicate StrictlySorted<T(!new)>(cmp: Comparison<T>, s: seq<T>) {
    forall i, j :: 0 <= i < j < |s| ==> cmp(s[i], s[j]) == Less
  }

  /** Only equal elements of the sequence compare equal. */
  ghost predicate Distinguishes<T(!new)>(cmp: Comparison<T>, s: seq<T>) {
    forall x, y :: x in s && y in s && cmp(x, y) == Equal ==> x == y
  }

  function Insert<T(!new)>(cmp: Comparison<T>, x: T, s: seq<T>): seq<T> {
    if s == [] || cmp(x, s[0]) != Greater then [x] + s else [s[0]] + Insert(cmp, x, s[1..])
  }

  /** A stable sort: of two that compare equal, the earlier stays in front. */
  function SortBy<T(!new)>(cmp: Comparison<T>, s: seq<T>): seq<T> {
    if s == [] then [] else Insert(cmp, s[0], SortBy(cmp, s[1..]))
  }

  /** Of equal neighbours one stays. */
  function Dedup<T(==)>(s: seq<T>): seq<T> {
    if |s| < 2 then s else if s[0] == s[1] then Dedup(s[1..]) else [s[0]] + Dedup(s[1..])
  }

  lemma {:induction false} InsertAdds<T(!new)>(cmp: Comparison<T>, x: T, s: seq<T>)
    ensures multiset(Insert(cmp, x, s)) == multiset([x]) + multiset(s)
    ensures forall y :: y in Insert(cmp, x, s) <==> y == x || y in s
  {
    if s != [] {
      assert s == [s[0]] + s[1..];
      InsertAdds(cmp, x, s[1..]);
    }
  }

  lemma {:induction false} InsertKeeps<T(!new)>(cmp: Comparison<T>, x: T, s: seq<T>)
    requires Lawful(cmp) && Sorted(cmp, s)
    ensures Sorted(cmp, Insert(cmp, x, s))
  {
    if s == [] || cmp(x, s[0]) != Greater {
      forall j | 0 <= j < |s| ensures cmp(x, s[j]) != Greater {
        assert Consistent(cmp(x, s[0]), cmp(s[0], s[j]), cmp(x, s[j]));
      }
    } else {
      var rest := Insert(cmp, x, s[1..]);
      InsertKeeps(cmp, x, s[1..]);
      InsertAdds(cmp, x, s[1..]);
      assert cmp(s[0], x) == cmp(x, s[0]).Flip();
      forall j | 0 <= j < |rest| ensures cmp(s[0], rest[j]) != Greater {
        assert rest[j] == x || rest[j] in s[1..];
      }
    }
  }

  lemma {:induction false} SortKeeps<T(!new)>(cmp: Comparison<T>, s: seq<T>)
    requires Lawful(cmp)
    ensures Sorted(cmp, SortBy(cmp, s)) && multiset(SortBy(cmp, s)) == multiset(s)
  {
    if s != [] {
      SortKeeps(cmp, s[1..]);
      InsertKeeps(cmp, s[0], SortBy(cmp, s[1..]));
      InsertAdds(cmp, s[0], SortBy(cmp, s[1..]));
      assert s == [s[0]] + s[1..];
    }
  }

  lemma {:induction false} SortOfSorted<T(!new)>(cmp: Comparison<T>, s: seq<T>)
    requires Sorted(cmp, s)
    ensures SortBy(cmp, s) == s
  {
    if s != [] {
      SortOfSorted(cmp, s[1..]);
      if |s| > 1 { assert cmp(s[0], s[1]) != Greater; }
      assert s == [s[0]] + s[1..];
    }
  }

  /** Two sorted arrangements of the same elements agree when equal comparison means equality. */
  lemma {:induction false} SortedUnique<T(!new)>(cmp: Comparison<T>, a: seq<T>, b: seq<T>)
    requires Lawful(cmp) && Sorted(cmp, a) && Sorted(cmp, b) && multiset(a) == multiset(b)
    requires Distinguishes(cmp, a)
    ensures a == b
  {
    assert |multiset(a)| == |a| && |multiset(b)| == |b|;
    hide Lawful, Sorted, Distinguishes;
    if a != [] {
      SortedHeads(cmp, a, b);
      SortedTail(cmp, a);
      SortedTail(cmp, b);
      SortedUnique(cmp, a[1..], b[1..]);
      SameHeadAndTail(a, b);
    }
  }

  lemma SameHeadAndTail<T>(a: seq<T>, b: seq<T>)
    requires a != [] && b != [] && a[0] == b[0] && a[1..] == b[1..]
    ensures a == b
  {
    assert a == [a[0]] + a[1..] && b == [b[0]] + b[1..];
  }

  lemma SortedHeads<T(!new)>(cmp: Comparison<T>, a: seq<T>, b: seq<T>)
    requires Lawful(cmp) && Sorted(cmp, a) && Sorted(cmp, b) && multiset(a) == multiset(b)
    requires Distinguishes(cmp, a)
    requires a != [] && b != []
    ensures a[0] == b[0]
  {
    assert a[0] in multiset(a) && b[0] in multiset(b);
    var i :| 0 <= i < |b| && b[i] == a[0];
    var j :| 0 <= j < |a| && a[j] == b[0];
    assert cmp(a[0], a[j]) == cmp(a[j], a[0]).Flip();
  }

  lemma SortedTail<T(!new)>(cmp: Comparison<T>, s: seq<T>)
    requires Sorted(cmp, s) && s != []
    ensures Sorted(cmp, s[1..]) && multiset(s[1..]) == multiset(s) - multiset{s[0]}
    ensures Distinguishes(cmp, s) ==> Distinguishes(cmp, s[1..])
  {
    assert s == [s[0]] + s[1..];
  }

  /** Sorting depends only on which elements there are. */
  lemma {:induction false} SortUnique<T(!new)>(cmp: Comparison<T>, a: seq<T>, b: seq<T>)
    requires Lawful(cmp)
    requires Distinguishes(cmp, a)
    ensures SortBy(cmp, a) == SortBy(cmp, b) <==> multiset(a) == multiset(b)
  {
    SortKeeps(cmp, a);
    SortKeeps(cmp, b);
    if multiset(a) == multiset(b) {
      assert forall x :: x in SortBy(cmp, a) ==> x in multiset(a);
      SortedUnique(cmp, SortBy(cmp, a), SortBy(cmp, b));
    }
  }

  lemma {:induction false} DedupSorts<T(!new)>(cmp: Comparison<T>, s: seq<T>)
    requires Lawful(cmp) && Exact(cmp) && Sorted(cmp, s)
    ensures StrictlySorted(cmp, Dedup(s))
    ensures forall x :: x in Dedup(s) <==> x in s
  {
    if |s| >= 2 {
      DedupSorts(cmp, s[1..]);
      assert s == [s[0]] + s[1..];
      if s[0] != s[1] {
        var rest := Dedup(s[1..]);
        forall j | 0 <= j < |rest| ensures cmp(s[0], rest[j]) == Less {
          assert rest[j] in s[1..];
          var k :| 1 <= k < |s| && s[k] == rest[j];
          assert Consistent(cmp(s[0], s[1]), cmp(s[1], s[k]), cmp(s[0], s[k]));
          assert cmp(s[0], s[1]) == Less;
        }
      }
    }
  }

  lemma {:induction false} DedupOfStrict<T(!new)>(cmp: Comparison<T>, s: seq<T>)
    requires Exact(cmp) && StrictlySorted(cmp, s)
    ensures Dedup(s) == s
  {
    if |s| >= 2 {
      DedupOfStrict(cmp, s[1..]);
      assert cmp(s[0], s[1]) == Less;
      assert s == [s[0]] + s[1..];
    }
  }

  /** Two strictly sorted sequences with the same elements are equal. */
  lemma {:induction false} StrictUnique<T(!new)>(cmp: Comparison<T>, a: seq<T>, b: seq<T>)
    requires Lawful(cmp) && StrictlySorted(cmp, a) && StrictlySorted(cmp, b)
    requires forall x :: x in a <==> x in b
    ensures a == b
  {
    if a == [] {
      assert forall i :: 0 <= i < |b| ==> b[i] in a;
    } else {
      assert a[0] in b;
      var i :| 0 <= i < |b| && b[i] == a[0];
      assert b[0] in a;
      var j :| 0 <= j < |a| && a[j] == b[0];
      assert cmp(a[0], b[0]) == cmp(b[0], a[0]).Flip();
      assert a[0] == b[0];
      assert cmp(a[0], a[0]) == cmp(a[0], a[0]).Flip();
      assert a == [a[0]] + a[1..] && b == [b[0]] + b[1..];
      forall x ensures x in a[1..] <==> x in b[1..] {
        StrictHead(cmp, a, x);
        StrictHead(cmp, b, x);
      }
      StrictUnique(cmp, a[1..], b[1..]);
    }
  }

  lemma StrictHead<T(!new)>(cmp: Comparison<T>, s: seq<T>, x: T)
    requires Lawful(cmp) && StrictlySorted(cmp, s) && s != []
    ensures x in s[1..] <==> x in s && x != s[0]
  {
    assert cmp(s[0], s[0]) == cmp(s[0], s[0]).Flip();
    assert s == [s[0]] + s[1..];
  }

  /** sort, then dedup. */
  function SortDedup<T(!new, ==)>(cmp: Comparison<T>, s: seq<T>): seq<T> {
    Dedup(SortBy(cmp, s))
  }

  lemma SortDedupKeeps<T(!new)>(cmp: Comparison<T>, s: seq<T>)
    requires Lawful(cmp) && Exact(cmp)
    ensures StrictlySorted(cmp, SortDedup(cmp, s))
    ensures forall x :: x in SortDedup(cmp, s) <==> x in s
    ensures SortDedup(cmp, SortDedup(cmp, s)) == SortDedup(cmp, s)
  {
    SortKeeps(cmp, s);
    var sorted := SortBy(cmp, s);
    assert forall x :: x in sorted <==> x in multiset(sorted);
    DedupSorts(cmp, sorted);
    SortOfSorted(cmp, Dedup(sorted));
    DedupOfStrict(cmp, Dedup(sorted));
  }

  /** The result depends only on the set of elements, and determines it. */
  lemma SortDedupUnique<T(!new)>(cmp: Comparison<T>, a: seq<T>, b: seq<T>)
    requires Lawful(cmp) && Exact(cmp)
    ensures SortDedup(cmp, a) == SortDedup(cmp, b) <==> ElementsOf(a) == ElementsOf(b)
  {
    SortDedupKeeps(cmp, a);
    SortDedupKeeps(cmp, b);
    if ElementsOf(a) == ElementsOf(b) {
      forall x ensures x in a <==> x in b {
        assert x in a <==> x in ElementsOf(a);
        assert x in b <==> x in ElementsOf(b);
      }
      StrictUnique(cmp, SortDedup(cmp, a), SortDedup(cmp, b));
    } else {
      assert ElementsOf(a) == ElementsOf(SortDedup(cmp, a));
      assert ElementsOf(b) == ElementsOf(SortDedup(cmp, b));
    }
  }

  /** No two elements compare equal. */
  ghost predicate Distinct<T(!new)>(cmp: Comparison<T>, s: seq<T>) {
    forall i, j :: 0 <= i < j < |s| ==> cmp(s[i], s[j]) != Equal
  }

  lemma {:induction false} InsertKeepsStrict<T(!new)>(cmp: Comparison<T>, x: T, s: seq<T>)
    requires Lawful(cmp) && StrictlySorted(cmp, s) && forall y <- s :: cmp(x, y) != Equal
    ensures StrictlySorted(cmp, Insert(cmp, x, s))
  {
    if s == [] || cmp(x, s[0]) != Greater {
      forall j | 0 <= j < |s| ensures cmp(x, s[j]) == Less {
        assert Consistent(cmp(x, s[0]), cmp(s[0], s[j]), cmp(x, s[j]));
      }
    } else {
      var rest := Insert(cmp, x, s[1..]);
      InsertKeepsStrict(cmp, x, s[1..]);
      InsertAdds(cmp, x, s[1..]);
      assert cmp(s[0], x) == cmp(x, s[0]).Flip();
      forall j | 0 <= j < |rest| ensures cmp(s[0], rest[j]) == Less {
        assert rest[j] == x || rest[j] in s[1..];
      }
    }
  }

  lemma {:induction false} SortStrict<T(!new)>(cmp: Comparison<T>, s: seq<T>)
    requires Lawful(cmp) && Distinct(cmp, s)
    ensures StrictlySorted(cmp, SortBy(cmp, s))
  {
    if s != [] {
      SortStrict(cmp, s[1..]);
      SortHolds(cmp, s[1..]);
      forall y <- SortBy(cmp, s[1..]) ensures cmp(s[0], y) != Equal {
        assert y in s[1..];
        var k :| 1 <= k < |s| && s[k] == y;
      }
      InsertKeepsStrict(cmp, s[0], SortBy(cmp, s[1..]));
    }
  }

  lemma SortHolds<T(!new)>(cmp: Comparison<T>, s: seq<T>)
    requires Lawful(cmp)
    ensures forall x :: x in SortBy(cmp, s) <==> x in s
    ensures |SortBy(cmp, s)| == |s|
  {
    SortKeeps(cmp, s);
    assert forall x :: x in SortBy(cmp, s) <==> x in multiset(SortBy(cmp, s));
    assert |multiset(SortBy(cmp, s))| == |SortBy(cmp, s)| && |multiset(s)| == |s|;
  }

  /** Elements that all compare different: the order depends only on the set. */
  lemma SortDistinctUnique<T(!new)>(cmp: Comparison<T>, a: seq<T>, b: seq<T>)
    requires Lawful(cmp) && Distinct(cmp, a) && Distinct(cmp, b)
    ensures SortBy(cmp, a) == SortBy(cmp, b) <==> ElementsOf(a) == ElementsOf(b)
  {
    SortStrict(cmp, a);
    SortStrict(cmp, b);
    SortHolds(cmp, a);
    SortHolds(cmp, b);
    if ElementsOf(a) == ElementsOf(b) {
      forall x ensures x in SortBy(cmp, a) <==> x in SortBy(cmp, b) {
        assert x in a <==> x in ElementsOf(a);
        assert x in b <==> x in ElementsOf(b);
      }
      StrictUnique(cmp, SortBy(cmp, a), SortBy(cmp, b));
    } else {
      assert ElementsOf(a) == ElementsOf(SortBy(cmp, a));
      assert ElementsOf(b) == ElementsOf(SortBy(cmp, b));
    }
  }
}
