/**
 * `Array.prototype.sort(comparefn)` as a value: a stable insertion sort
 * over any comparator. `lt(a, b)` says that `comparefn(a, b) < 0`, that is,
 * `a` is to be placed before `b`.
 */
module Sorting {
  import opened Common

  /** `lt` is irreflexive and transitive on the items of `s`. */
  ghost predicate StrictOn<T>(lt: (T, T) -> bool, s: seq<T>) {
    && (forall a :: a in s ==> !lt(a, a))
    && (forall a, b, c :: a in s && b in s && c in s && lt(a, b) && lt(b, c) ==> lt(a, c))
  }

  /**
   * `lt` is moreover a strict weak order on the items of `s` (a consistent
   * comparator in the sense of ECMA-262): whatever `b` is, it goes after `a`
   * or before `c` when `a` goes before `c`.
   */
  ghost predicate WeakOn<T>(lt: (T, T) -> bool, s: seq<T>) {
    && StrictOn(lt, s)
    && (forall a, b, c :: a in s && b in s && c in s && lt(a, c) ==> lt(a, b) || lt(b, c))
  }

  /** No later item should have gone before an earlier one. */
  predicate SortedBy<T>(s: seq<T>, lt: (T, T) -> bool) {
    forall i, j :: 0 <= i < j < |s| ==> !lt(s[j], s[i])
  }

  /** Insert `x` after every item it does not go before: after its equals. */
  function Insert<T>(x: T, s: seq<T>, lt: (T, T) -> bool): (r: seq<T>)
    ensures multiset(r) == multiset(s) + multiset{x}
    ensures |r| == |s| + 1
  {
    if s == [] then [x]
    else if lt(x, s[0]) then [x] + s
    else (assert s == [s[0]] + s[1..]; [s[0]] + Insert(x, s[1..], lt))
  }

  /** Insertion sort that inserts the items in their original order. */
  function SortBy<T>(s: seq<T>, lt: (T, T) -> bool): (r: seq<T>)
    ensures multiset(r) == multiset(s)
    ensures |r| == |s|
  {
    if s == [] then []
    else
      assert s == s[..|s| - 1] + [s[|s| - 1]];
      Insert(s[|s| - 1], SortBy(s[..|s| - 1], lt), lt)
  }

  lemma {:induction false} InsertSorted<T>(x: T, s: seq<T>, lt: (T, T) -> bool)
    requires SortedBy(s, lt) && StrictOn(lt, s + [x])
    ensures SortedBy(Insert(x, s, lt), lt)
  {
    if s == [] {
    } else if lt(x, s[0]) {
      forall j | 0 <= j < |s|
        ensures !lt(s[j], x)
      {
        assert s[j] in s + [x] && s[0] in s + [x] && x in s + [x];
        assert j > 0 ==> !lt(s[j], s[0]);
      }
    } else {
      var t := s[1..];
      assert forall f :: f in t + [x] ==> f in s + [x];
      InsertSorted(x, t, lt);
      var r := Insert(x, t, lt);
      forall j | 0 <= j < |r|
        ensures !lt(r[j], s[0])
      {
        assert r[j] in multiset(r);
        if r[j] != x {
          assert r[j] in t;
          var k :| 0 <= k < |t| && t[k] == r[j];
          assert s[k + 1] == r[j];
        }
      }
    }
  }

  /** Every item of a permutation is an item of the original. */
  lemma PermutationMembers<T>(r: seq<T>, s: seq<T>)
    requires multiset(r) == multiset(s)
    ensures forall f :: f in r <==> f in s
  {
    forall f ensures f in r <==> f in s {
      assert f in r <==> f in multiset(r);
    }
  }

  lemma MembersOfAppend<T>(q: seq<T>, p: seq<T>, x: T, s: seq<T>)
    requires (forall f :: f in q <==> f in p) && s == p + [x]
    ensures forall f :: f in q + [x] ==> f in s
  {
  }

  /** The result is ordered by the comparator and is a permutation of the input. */
  lemma {:induction false} SortBySorted<T>(s: seq<T>, lt: (T, T) -> bool)
    requires StrictOn(lt, s)
    ensures SortedBy(SortBy(s, lt), lt)
    ensures multiset(SortBy(s, lt)) == multiset(s)
  {
    if s != [] {
      var p, x := s[..|s| - 1], s[|s| - 1];
      assert s == p + [x];
      assert forall f :: f in p ==> f in s;
      SortBySorted(p, lt);
      var q := SortBy(p, lt);
      PermutationMembers(q, p);
      MembersOfAppend(q, p, x, s);
      InsertSorted(x, q, lt);
    }
  }

  /** Inserting an item that goes before nothing appends it. */
  lemma {:induction false} InsertLast<T>(x: T, s: seq<T>, lt: (T, T) -> bool)
    requires forall i :: 0 <= i < |s| ==> !lt(x, s[i])
    ensures Insert(x, s, lt) == s + [x]
  {
    if s != [] {
      InsertLast(x, s[1..], lt);
      assert s == [s[0]] + s[1..];
    }
  }

  /** Sorting a list that is already in order leaves it as it is. */
  lemma {:induction false} SortSortedIdentity<T>(s: seq<T>, lt: (T, T) -> bool)
    requires SortedBy(s, lt)
    ensures SortBy(s, lt) == s
  {
    if s != [] {
      var p := s[..|s| - 1];
      assert SortedBy(p, lt);
      SortSortedIdentity(p, lt);
      InsertLast(s[|s| - 1], p, lt);
    }
  }

  /** A subsequence of an ordered list is ordered: filtering keeps the sort. */
  lemma {:induction false} SubseqSorted<T>(r: seq<T>, s: seq<T>, lt: (T, T) -> bool)
    requires IsSubseq(r, s) && SortedBy(s, lt)
    ensures SortedBy(r, lt)
    decreases |s|
  {
    if r != [] {
      assert SortedBy(s[1..], lt);
      if r[0] == s[0] && IsSubseq(r[1..], s[1..]) {
        SubseqSorted(r[1..], s[1..], lt);
        forall j | 1 <= j < |r|
          ensures !lt(r[j], r[0])
        {
          assert r[1..][j - 1] == r[j];
          SubseqMembers(r[1..], s[1..], r[j]);
          var k :| 0 <= k < |s[1..]| && s[1..][k] == r[j];
          assert s[k + 1] == r[j];
        }
      } else {
        SubseqSorted(r, s[1..], lt);
      }
    }
  }

  // ---------------------------------------------------------------------
  // Stability

  /** Neither item goes before the other: the comparator returns 0. */
  predicate Tied<T>(lt: (T, T) -> bool, a: T, b: T) {
    !lt(a, b) && !lt(b, a)
  }

  /** The items of `s` that tie with `v`, in their order in `s`. */
  function TiedWith<T>(s: seq<T>, lt: (T, T) -> bool, v: T): seq<T> {
    if s == [] then [] else (if Tied(lt, s[0], v) then [s[0]] else []) + TiedWith(s[1..], lt, v)
  }

  lemma {:induction false} TiedWithAppend<T>(s: seq<T>, x: T, lt: (T, T) -> bool, v: T)
    ensures TiedWith(s + [x], lt, v) == TiedWith(s, lt, v) + (if Tied(lt, x, v) then [x] else [])
  {
    if s != [] {
      assert (s + [x])[1..] == s[1..] + [x];
      TiedWithAppend(s[1..], x, lt, v);
    }
  }

  lemma {:induction false} TiedWithNone<T>(s: seq<T>, lt: (T, T) -> bool, v: T)
    requires forall i :: 0 <= i < |s| ==> !Tied(lt, s[i], v)
    ensures TiedWith(s, lt, v) == []
  {
    if s != [] {
      TiedWithNone(s[1..], lt, v);
    }
  }

  lemma {:induction false} InsertStable<T>(x: T, s: seq<T>, lt: (T, T) -> bool, v: T)
    requires SortedBy(s, lt) && WeakOn(lt, s + [x, v])
    ensures TiedWith(Insert(x, s, lt), lt, v) == TiedWith(s, lt, v) + (if Tied(lt, x, v) then [x] else [])
  {
    if s == [] {
      assert [x][1..] == [];
    } else if lt(x, s[0]) {
      TiedWithCons(x, s, lt, v);
      if Tied(lt, x, v) {
        AboveTied(x, s, lt, v);
        TiedWithNone(s, lt, v);
      }
    } else {
      TailWeakOn(s, [x, v], lt);
      InsertStable(x, s[1..], lt, v);
      TiedWithConsAppend(s[0], Insert(x, s[1..], lt), s[1..], if Tied(lt, x, v) then [x] else [], lt, v);
      assert [s[0]] + s[1..] == s;
    }
  }

  lemma TiedWithCons<T>(a: T, s: seq<T>, lt: (T, T) -> bool, v: T)
    ensures TiedWith([a] + s, lt, v) == (if Tied(lt, a, v) then [a] else []) + TiedWith(s, lt, v)
  {
    assert ([a] + s)[1..] == s;
  }

  /** Putting the same item in front of two lists keeps what they differ by at the back. */
  lemma TiedWithConsAppend<T>(a: T, r: seq<T>, rest: seq<T>, mark: seq<T>, lt: (T, T) -> bool, v: T)
    requires TiedWith(r, lt, v) == TiedWith(rest, lt, v) + mark
    ensures TiedWith([a] + r, lt, v) == TiedWith([a] + rest, lt, v) + mark
  {
    TiedWithCons(a, r, lt, v);
    TiedWithCons(a, rest, lt, v);
    ConcatAssoc(if Tied(lt, a, v) then [a] else [], TiedWith(rest, lt, v), mark);
  }

  lemma ConcatAssoc<T>(a: seq<T>, b: seq<T>, c: seq<T>)
    ensures a + (b + c) == (a + b) + c
  {
  }

  /** The tail of a sorted list, with the same extra items, keeps both properties. */
  lemma TailWeakOn<T>(s: seq<T>, extra: seq<T>, lt: (T, T) -> bool)
    requires s != [] && SortedBy(s, lt) && WeakOn(lt, s + extra)
    ensures SortedBy(s[1..], lt) && WeakOn(lt, s[1..] + extra)
  {
    assert forall f :: f in s[1..] + extra ==> f in s + extra;
  }

  /** An item that goes before a sorted list's head, ties with `v` only if nothing in the list does. */
  lemma AboveTied<T>(x: T, s: seq<T>, lt: (T, T) -> bool, v: T)
    requires s != [] && SortedBy(s, lt) && WeakOn(lt, s + [x, v])
    requires lt(x, s[0]) && Tied(lt, x, v)
    ensures forall j :: 0 <= j < |s| ==> !Tied(lt, s[j], v)
  {
    var u := s + [x, v];
    assert x in u && v in u && s[0] in u;
    forall j | 0 <= j < |s|
      ensures lt(v, s[j])
    {
      assert s[j] in u;
      if j > 0 {
        assert !lt(s[j], s[0]);
        assert lt(x, s[j]);
      }
      assert lt(x, v) || lt(v, s[j]);
    }
  }

  lemma WeakOnPermuted<T>(q: seq<T>, p: seq<T>, x: T, v: T, s: seq<T>, lt: (T, T) -> bool)
    requires (forall f :: f in q <==> f in p) && s == p + [x] && WeakOn(lt, s + [v])
    ensures WeakOn(lt, q + [x, v])
  {
    assert forall f :: f in q + [x, v] ==> f in s + [v];
  }

  /**
   * Stability: with a consistent comparator, the items tied with any `v`
   * keep their relative order.
   */
  lemma {:induction false} SortByStable<T>(s: seq<T>, lt: (T, T) -> bool, v: T)
    requires WeakOn(lt, s + [v])
    ensures TiedWith(SortBy(s, lt), lt, v) == TiedWith(s, lt, v)
  {
    if s != [] {
      var p, x := s[..|s| - 1], s[|s| - 1];
      assert s == p + [x];
      assert forall f :: f in p + [v] ==> f in s + [v];
      SortByStable(p, lt, v);
      SortBySorted(p, lt);
      var q := SortBy(p, lt);
      PermutationMembers(q, p);
      WeakOnPermuted(q, p, x, v, s, lt);
      InsertStable(x, q, lt, v);
      TiedWithAppend(p, x, lt, v);
    }
  }
}
