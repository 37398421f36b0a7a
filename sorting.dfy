/** `Array.prototype.sort` with a comparator, and `localeCompare` as an
    abstract collation.

    Since ECMAScript 2019 `sort` is stable, so its result is fully determined
    by the comparator: this module defines it as a stable insertion sort and
    proves that the result is a permutation of the input, ordered by the
    comparator, and that elements the comparator ties keep their input
    order. */
module Sorting {

  /** What `sort` needs of a comparator for its result to be well defined:
      the sign flips when the arguments are swapped, and "not after" is
      transitive. */
  ghost predicate IsComparator<T(!new)>(cmp: (T, T) -> real)
  {
    SignFlips(cmp) && NotAfterTransitive(cmp)
  }

  ghost predicate SignFlips<T(!new)>(cmp: (T, T) -> real)
  {
    forall a, b :: cmp(a, b) < 0.0 <==> cmp(b, a) > 0.0
  }

  ghost predicate NotAfterTransitive<T(!new)>(cmp: (T, T) -> real)
  {
    forall a, b, c :: cmp(a, b) <= 0.0 && cmp(b, c) <= 0.0 ==> cmp(a, c) <= 0.0
  }

  /** What the model assumes of `a.localeCompare(b)`: a total preorder on
      strings, reported through the sign of an integer. */
  ghost predicate IsCollation(collate: (string, string) -> int)
  {
    && (forall a, b :: collate(a, b) < 0 <==> collate(b, a) > 0)
    && (forall a, b, c :: collate(a, b) <= 0 && collate(b, c) <= 0 ==> collate(a, c) <= 0)
  }

  /** Negating a comparator gives a comparator again. */
  lemma {:induction false} NegateComparator<T(!new)>(cmp: (T, T) -> real)
    requires IsComparator(cmp)
    ensures IsComparator((a: T, b: T) => -cmp(a, b))
  {
    forall a, b, c | -cmp(a, b) <= 0.0 && -cmp(b, c) <= 0.0
      ensures -cmp(a, c) <= 0.0
    {
      assert cmp(b, a) <= 0.0 && cmp(c, b) <= 0.0;
      assert cmp(c, a) <= 0.0;
    }
  }

  predicate SortedBy<T>(s: seq<T>, cmp: (T, T) -> real)
  {
    forall i, j :: 0 <= i < j < |s| ==> cmp(s[i], s[j]) <= 0.0
  }

  /** Put `x` in front of the first element it does not sort after. */
  function Insert<T>(x: T, s: seq<T>, cmp: (T, T) -> real): seq<T>
  {
    if s == [] then [x]
    else if cmp(x, s[0]) <= 0.0 then [x] + s
    else [s[0]] + Insert(x, s[1..], cmp)
  }

  /** `[...s].sort(cmp)`, stable. */
  function SortBy<T>(s: seq<T>, cmp: (T, T) -> real): seq<T>
  {
    if s == [] then [] else Insert(s[0], SortBy(s[1..], cmp), cmp)
  }

  lemma {:induction false} InsertPermutes<T>(x: T, s: seq<T>, cmp: (T, T) -> real)
    ensures multiset(Insert(x, s, cmp)) == multiset(s) + multiset{x}
  {
    if s != [] && cmp(x, s[0]) > 0.0 {
      assert s == [s[0]] + s[1..];
      InsertPermutes(x, s[1..], cmp);
    }
  }

  /** Every element of `Insert(x, s)` comes from `s` or is `x`. */
  lemma InsertElements<T>(x: T, s: seq<T>, cmp: (T, T) -> real, k: nat)
    requires k < |Insert(x, s, cmp)|
    ensures Insert(x, s, cmp)[k] == x || Insert(x, s, cmp)[k] in s
  {
    InsertPermutes(x, s, cmp);
    assert Insert(x, s, cmp)[k] in multiset(s) + multiset{x};
  }

  lemma SortedCons<T>(y: T, r: seq<T>, cmp: (T, T) -> real)
    requires SortedBy(r, cmp)
    requires forall k :: 0 <= k < |r| ==> cmp(y, r[k]) <= 0.0
    ensures SortedBy([y] + r, cmp)
  {
    var t := [y] + r;
    forall i, j | 0 <= i < j < |t| ensures cmp(t[i], t[j]) <= 0.0 {
      if i > 0 {
        assert t[i] == r[i - 1];
      }
      assert t[j] == r[j - 1];
    }
  }

  lemma BelowHead<T(!new)>(x: T, s: seq<T>, cmp: (T, T) -> real)
    requires NotAfterTransitive(cmp) && SortedBy(s, cmp)
    requires s != [] && cmp(x, s[0]) <= 0.0
    ensures forall k :: 0 <= k < |s| ==> cmp(x, s[k]) <= 0.0
  {
    forall k | 0 < k < |s| ensures cmp(x, s[k]) <= 0.0 {
      assert cmp(s[0], s[k]) <= 0.0;
    }
  }

  lemma {:induction false} InsertSorted<T(!new)>(x: T, s: seq<T>, cmp: (T, T) -> real)
    requires IsComparator(cmp) && SortedBy(s, cmp)
    ensures SortedBy(Insert(x, s, cmp), cmp)
  {
    if s == [] {
    } else if cmp(x, s[0]) > 0.0 {
      InsertSorted(x, s[1..], cmp);
      var r := Insert(x, s[1..], cmp);
      forall k | 0 <= k < |r| ensures cmp(s[0], r[k]) <= 0.0 {
        InsertElements(x, s[1..], cmp, k);
        if r[k] != x {
          var m :| 0 <= m < |s[1..]| && s[1..][m] == r[k];
          assert s[m + 1] == r[k];
        }
      }
      SortedCons(s[0], r, cmp);
    } else {
      BelowHead(x, s, cmp);
      SortedCons(x, s, cmp);
    }
  }

  /** The sorted sequence is a permutation of the input, in comparator
      order. */
  lemma {:induction false} SortBySound<T(!new)>(s: seq<T>, cmp: (T, T) -> real)
    ensures multiset(SortBy(s, cmp)) == multiset(s)
    ensures IsComparator(cmp) ==> SortedBy(SortBy(s, cmp), cmp)
  {
    if s != [] {
      SortBySound(s[1..], cmp);
      InsertPermutes(s[0], SortBy(s[1..], cmp), cmp);
      if IsComparator(cmp) {
        InsertSorted(s[0], SortBy(s[1..], cmp), cmp);
      }
      assert s == [s[0]] + s[1..];
    }
  }

  /** The elements of `s` the comparator puts level with `k`, in their order
      in `s`. */
  function Ties<T>(s: seq<T>, k: T, cmp: (T, T) -> real): seq<T>
  {
    if s == [] then []
    else (if cmp(s[0], k) == 0.0 then [s[0]] else []) + Ties(s[1..], k, cmp)
  }

  /** Two elements level with the same `k` do not sort after each other. */
  lemma TiedPairInOrder<T(!new)>(x: T, y: T, k: T, cmp: (T, T) -> real)
    requires IsComparator(cmp)
    ensures cmp(x, k) == 0.0 && cmp(y, k) == 0.0 ==> cmp(x, y) <= 0.0
  {
    if cmp(x, k) == 0.0 && cmp(y, k) == 0.0 {
      assert cmp(k, y) <= 0.0;
    }
  }

  lemma {:induction false} InsertTies<T(!new)>(x: T, s: seq<T>, k: T, cmp: (T, T) -> real)
    requires forall i :: 0 <= i < |s| ==> (cmp(x, k) == 0.0 && cmp(s[i], k) == 0.0 ==> cmp(x, s[i]) <= 0.0)
    ensures Ties(Insert(x, s, cmp), k, cmp) == (if cmp(x, k) == 0.0 then [x] else []) + Ties(s, k, cmp)
  {
    if s == [] {
      assert [x][1..] == [];
    } else if cmp(x, s[0]) <= 0.0 {
      assert ([x] + s)[1..] == s;
    } else {
      var tail := s[1..];
      assert forall i :: 0 <= i < |tail| ==> tail[i] == s[i + 1];
      InsertTies(x, tail, k, cmp);
      InsertTiesPast(x, s, k, cmp);
    }
  }

  lemma TiesCons<T>(h: T, t: seq<T>, k: T, cmp: (T, T) -> real)
    ensures Ties([h] + t, k, cmp) == (if cmp(h, k) == 0.0 then [h] else []) + Ties(t, k, cmp)
  {
    assert ([h] + t)[1..] == t;
  }

  /** The step of `InsertTies` where `x` goes past the head of `s`. */
  lemma InsertTiesPast<T>(x: T, s: seq<T>, k: T, cmp: (T, T) -> real)
    requires s != [] && cmp(x, s[0]) > 0.0
    requires !(cmp(x, k) == 0.0 && cmp(s[0], k) == 0.0)
    requires Ties(Insert(x, s[1..], cmp), k, cmp) == (if cmp(x, k) == 0.0 then [x] else []) + Ties(s[1..], k, cmp)
    ensures Ties(Insert(x, s, cmp), k, cmp) == (if cmp(x, k) == 0.0 then [x] else []) + Ties(s, k, cmp)
  {
    var rest := Insert(x, s[1..], cmp);
    var later := Ties(s[1..], k, cmp);
    assert Insert(x, s, cmp) == [s[0]] + rest;
    TiesCons(s[0], rest, k, cmp);
    TiesCons(s[0], s[1..], k, cmp);
    assert [s[0]] + s[1..] == s;
    if cmp(x, k) == 0.0 {
      assert Ties(rest, k, cmp) == [x] + later;
      assert Ties(Insert(x, s, cmp), k, cmp) == [x] + later;
      assert Ties(s, k, cmp) == later;
    } else {
      assert Ties(rest, k, cmp) == later;
      assert [] + Ties(s, k, cmp) == Ties(s, k, cmp);
    }
  }

  /** Stability: among the elements level with any `k`, sorting keeps the
      input order. */
  lemma {:induction false} SortByStable<T(!new)>(s: seq<T>, k: T, cmp: (T, T) -> real)
    requires IsComparator(cmp)
    ensures Ties(SortBy(s, cmp), k, cmp) == Ties(s, k, cmp)
  {
    if s != [] {
      SortByStable(s[1..], k, cmp);
      var t := SortBy(s[1..], cmp);
      forall i | 0 <= i < |t|
        ensures cmp(s[0], k) == 0.0 && cmp(t[i], k) == 0.0 ==> cmp(s[0], t[i]) <= 0.0
      {
        TiedPairInOrder(s[0], t[i], k, cmp);
      }
      InsertTies(s[0], t, k, cmp);
    }
  }

  /** No two different elements of `s` are level under `cmp`. */
  ghost predicate TieFree<T(!new)>(s: seq<T>, cmp: (T, T) -> real)
  {
    forall x, y :: x in s && y in s && cmp(x, y) == 0.0 ==> x == y
  }

  lemma HeadsEqual<T(!new)>(a: seq<T>, b: seq<T>, cmp: (T, T) -> real)
    requires SignFlips(cmp)
    requires multiset(a) == multiset(b) && a != []
    requires SortedBy(a, cmp) && SortedBy(b, cmp)
    requires TieFree(a, cmp)
    ensures b != [] && a[0] == b[0]
  {
    assert a[0] in multiset(b);
    assert b[0] in multiset(a);
    var k :| 0 <= k < |b| && b[k] == a[0];
    var m :| 0 <= m < |a| && a[m] == b[0];
  }

  lemma TailsPermute<T>(a: seq<T>, b: seq<T>)
    requires multiset(a) == multiset(b) && a != [] && b != [] && a[0] == b[0]
    ensures multiset(a[1..]) == multiset(b[1..])
  {
    assert a == [a[0]] + a[1..] && b == [b[0]] + b[1..];
    assert multiset(a[1..]) == multiset(a) - multiset{a[0]};
    assert multiset(b[1..]) == multiset(b) - multiset{b[0]};
  }

  /** Without ties, the sorted permutation of a sequence is unique. */
  lemma {:induction false} SortedPermutationUnique<T(!new)>(a: seq<T>, b: seq<T>, cmp: (T, T) -> real)
    requires SignFlips(cmp)
    requires multiset(a) == multiset(b)
    requires SortedBy(a, cmp) && SortedBy(b, cmp)
    requires TieFree(a, cmp)
    ensures a == b
    decreases |a|
  {
    if a == [] {
      assert |b| == |multiset(b)| == 0;
    } else {
      HeadsEqual(a, b, cmp);
      TailsPermute(a, b);
      assert forall x :: x in a[1..] ==> x in a;
      SortedPermutationUnique(a[1..], b[1..], cmp);
      assert a == [a[0]] + a[1..] && b == [b[0]] + b[1..];
    }
  }

  function Reverse<T>(s: seq<T>): (r: seq<T>)
    ensures |r| == |s|
    ensures forall i :: 0 <= i < |s| ==> r[i] == s[|s| - 1 - i]
  {
    if s == [] then [] else Reverse(s[1..]) + [s[0]]
  }

  lemma {:induction false} ReverseMultiset<T>(s: seq<T>)
    ensures multiset(Reverse(s)) == multiset(s)
  {
    if s != [] {
      ReverseMultiset(s[1..]);
      assert s == [s[0]] + s[1..];
    }
  }

  lemma ReverseSorted<T(!new)>(s: seq<T>, asc: (T, T) -> real, desc: (T, T) -> real)
    requires SignFlips(asc) && SortedBy(s, asc)
    requires forall a, b :: desc(a, b) == -asc(a, b)
    ensures SortedBy(Reverse(s), desc)
  {
    var r := Reverse(s);
    forall i, j | 0 <= i < j < |r| ensures desc(r[i], r[j]) <= 0.0 {
      assert asc(s[|s| - 1 - j], s[|s| - 1 - i]) <= 0.0;
    }
  }

  /** When no two different elements tie, sorting by the negated comparator
      gives the reverse of sorting by the comparator. */
  lemma NegatedSortIsReverse<T(!new)>(s: seq<T>, asc: (T, T) -> real, desc: (T, T) -> real)
    requires IsComparator(asc)
    requires forall a, b :: desc(a, b) == -asc(a, b)
    requires TieFree(s, asc)
    ensures SortBy(s, desc) == Reverse(SortBy(s, asc))
  {
    var up := SortBy(s, asc);
    SortBySound(s, asc);
    NegateComparator(asc);
    assert IsComparator(desc);
    SortBySound(s, desc);
    ReverseMultiset(up);
    ReverseSorted(up, asc, desc);
    var down := SortBy(s, desc);
    forall x, y | x in down && y in down && desc(x, y) == 0.0
      ensures x == y
    {
      assert x in multiset(s) && y in multiset(s);
    }
    SortedPermutationUnique(down, Reverse(up), desc);
  }

  /** A stable sort leaves two tied elements as they are. */
  lemma SortTiedPair<T>(a: T, b: T, cmp: (T, T) -> real)
    requires cmp(a, b) == 0.0
    ensures SortBy([a, b], cmp) == [a, b]
  {
    assert [a, b][1..] == [b] && [b][1..] == [];
    assert SortBy([b], cmp) == [b];
  }

  lemma SortSingleton<T>(x: T, cmp: (T, T) -> real)
    ensures SortBy([x], cmp) == [x]
  {
    assert [x][1..] == [];
    assert SortBy([x][1..], cmp) == [];
  }
}
