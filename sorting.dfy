/** Python's `list.sort(key=..., reverse=...)`, which every scanner calls on its results:
    a stable sort. It is modelled for any total preorder `ge` ("may come before") as an
    insertion sort on sequences, and proved sorted, a permutation and stable once here. */
module Sorting {

  /** `ge` compares every two values and is transitive. */
  ghost predicate TotalPreorder<T(!new)>(ge: (T, T) -> bool) {
    (forall a, b :: ge(a, b) || ge(b, a)) &&
    (forall a, b, c :: ge(a, b) && ge(b, c) ==> ge(a, c))
  }

  /** Every element may come before every later one. */
  ghost predicate SortedBy<T>(s: seq<T>, ge: (T, T) -> bool) {
    forall i, j :: 0 <= i < j < |s| ==> ge(s[i], s[j])
  }

  /** Inserts `x` into `s` after every element that may come before it. */
  function Insert<T>(x: T, s: seq<T>, ge: (T, T) -> bool): (r: seq<T>)
    ensures |r| == |s| + 1
    ensures multiset(r) == multiset(s) + multiset{x}
  {
    if s == [] then [x]
    else if ge(s[0], x) then
      assert s == [s[0]] + s[1..];
      [s[0]] + Insert(x, s[1..], ge)
    else
      [x] + s
  }

  lemma {:induction false} InsertSorted<T(!new)>(x: T, s: seq<T>, ge: (T, T) -> bool)
    requires TotalPreorder(ge) && SortedBy(s, ge)
    ensures SortedBy(Insert(x, s, ge), ge)
  {
    if s == [] {
    } else if ge(s[0], x) {
      var rest := Insert(x, s[1..], ge);
      assert SortedBy(s[1..], ge) by {
        forall i, j | 0 <= i < j < |s[1..]| ensures ge(s[1..][i], s[1..][j]) {
          assert s[1..][i] == s[i + 1] && s[1..][j] == s[j + 1];
        }
      }
      InsertSorted(x, s[1..], ge);
      forall k | 0 <= k < |rest| ensures ge(s[0], rest[k]) {
        assert rest[k] in multiset(rest);
        if rest[k] != x {
          HeadFirst(s, rest[k], ge);
        }
      }
      assert Insert(x, s, ge) == [s[0]] + rest;
      ConsSorted(s[0], rest, ge);
    } else {
      assert ge(x, s[0]);
      forall k | 0 <= k < |s| ensures ge(x, s[k]) {
        if k > 0 { assert ge(s[0], s[k]); }
      }
      ConsSorted(x, s, ge);
    }
  }

  lemma HeadFirst<T>(s: seq<T>, y: T, ge: (T, T) -> bool)
    requires SortedBy(s, ge) && s != [] && y in s[1..]
    ensures ge(s[0], y)
  {
    var j :| 0 <= j < |s[1..]| && s[1..][j] == y;
    assert s[j + 1] == y;
  }

  lemma ConsSorted<T>(h: T, rest: seq<T>, ge: (T, T) -> bool)
    requires SortedBy(rest, ge)
    requires forall k :: 0 <= k < |rest| ==> ge(h, rest[k])
    ensures SortedBy([h] + rest, ge)
  {
    var r := [h] + rest;
    forall i, j | 0 <= i < j < |r| ensures ge(r[i], r[j]) {
      assert r[j] == rest[j - 1];
      if i > 0 { assert r[i] == rest[i - 1]; }
    }
  }

  /** The stable sort of `s`: elements are inserted in their original order. */
  function SortBy<T(!new)>(s: seq<T>, ge: (T, T) -> bool): (r: seq<T>)
    requires TotalPreorder(ge)
    ensures |r| == |s|
    ensures multiset(r) == multiset(s)
    ensures SortedBy(r, ge)
  {
    if s == [] then []
    else
      var init := SortBy(s[..|s| - 1], ge);
      assert s == s[..|s| - 1] + [s[|s| - 1]];
      InsertSorted(s[|s| - 1], init, ge);
      Insert(s[|s| - 1], init, ge)
  }

  ghost predicate Equiv<T>(ge: (T, T) -> bool, a: T, b: T) {
    ge(a, b) && ge(b, a)
  }

  /** The elements of `s` that are equivalent to `x` under `ge`, in their order in `s`. */
  ghost function EquivalentTo<T>(s: seq<T>, x: T, ge: (T, T) -> bool): seq<T> {
    if s == [] then []
    else (if Equiv(ge, s[0], x) then [s[0]] else []) + EquivalentTo(s[1..], x, ge)
  }

  lemma {:induction false} EquivalentToAppend<T>(a: seq<T>, b: seq<T>, x: T, ge: (T, T) -> bool)
    ensures EquivalentTo(a + b, x, ge) == EquivalentTo(a, x, ge) + EquivalentTo(b, x, ge)
  {
    if a == [] {
      assert a + b == b;
    } else {
      var h := if Equiv(ge, a[0], x) then [a[0]] else [];
      assert a + b == [a[0]] + (a[1..] + b);
      assert a == [a[0]] + a[1..];
      EquivalentToCons(a[0], a[1..] + b, x, ge);
      EquivalentToCons(a[0], a[1..], x, ge);
      EquivalentToAppend(a[1..], b, x, ge);
      Regroup(h, EquivalentTo(a[1..], x, ge), EquivalentTo(b, x, ge));
    }
  }

  lemma {:induction false} EquivalentToNone<T>(s: seq<T>, x: T, ge: (T, T) -> bool)
    requires forall k :: 0 <= k < |s| ==> !Equiv(ge, s[k], x)
    ensures EquivalentTo(s, x, ge) == []
  {
    if s != [] {
      EquivalentToNone(s[1..], x, ge);
    }
  }

  lemma {:induction false} EquivalentToCons<T>(a: T, s: seq<T>, x: T, ge: (T, T) -> bool)
    ensures EquivalentTo([a] + s, x, ge) ==
            (if Equiv(ge, a, x) then [a] else []) + EquivalentTo(s, x, ge)
  {
    assert ([a] + s)[0] == a;
    assert ([a] + s)[1..] == s;
  }

  /** When `x`'s equals go in front of `t`, no element of `t` is one of them. */
  lemma NoneEquivalentAfter<T(!new)>(y: T, t: seq<T>, x: T, ge: (T, T) -> bool)
    requires TotalPreorder(ge) && SortedBy(t, ge)
    requires t != [] && !ge(t[0], y) && Equiv(ge, y, x)
    ensures forall k :: 0 <= k < |t| ==> !Equiv(ge, t[k], x)
  {
  }

  lemma InsertStablePassing<T>(y: T, t: seq<T>, x: T, ge: (T, T) -> bool)
    requires t != [] && ge(t[0], y)
    requires EquivalentTo(Insert(y, t[1..], ge), x, ge) ==
             EquivalentTo(t[1..], x, ge) + (if Equiv(ge, y, x) then [y] else [])
    ensures EquivalentTo(Insert(y, t, ge), x, ge) ==
            EquivalentTo(t, x, ge) + (if Equiv(ge, y, x) then [y] else [])
  {
    var rest := Insert(y, t[1..], ge);
    assert Insert(y, t, ge) == [t[0]] + rest;
    EquivalentToCons(t[0], rest, x, ge);
    Regroup(if Equiv(ge, t[0], x) then [t[0]] else [], EquivalentTo(t[1..], x, ge),
            if Equiv(ge, y, x) then [y] else []);
  }

  lemma Regroup<T>(h: seq<T>, b: seq<T>, tl: seq<T>)
    ensures h + (b + tl) == (h + b) + tl
  {
  }

  lemma InsertStableStopping<T>(y: T, t: seq<T>, x: T, ge: (T, T) -> bool)
    requires t != [] && !ge(t[0], y)
    requires Equiv(ge, y, x) ==> forall k :: 0 <= k < |t| ==> !Equiv(ge, t[k], x)
    ensures EquivalentTo(Insert(y, t, ge), x, ge) ==
            EquivalentTo(t, x, ge) + (if Equiv(ge, y, x) then [y] else [])
  {
    assert Insert(y, t, ge) == [y] + t;
    EquivalentToCons(y, t, x, ge);
    if Equiv(ge, y, x) {
      EquivalentToNone(t, x, ge);
    }
  }

  lemma {:induction false} InsertStable<T(!new)>(y: T, t: seq<T>, x: T, ge: (T, T) -> bool)
    requires TotalPreorder(ge) && SortedBy(t, ge)
    ensures EquivalentTo(Insert(y, t, ge), x, ge) ==
            EquivalentTo(t, x, ge) + (if Equiv(ge, y, x) then [y] else [])
  {
    if t == [] {
      assert Insert(y, t, ge) == [y] + [];
      EquivalentToCons(y, [], x, ge);
    } else if ge(t[0], y) {
      InsertStable(y, t[1..], x, ge);
      InsertStablePassing(y, t, x, ge);
    } else {
      if Equiv(ge, y, x) {
        NoneEquivalentAfter(y, t, x, ge);
      }
      InsertStableStopping(y, t, x, ge);
    }
  }

  /** Stability: the elements that compare equal keep their relative order. */
  lemma {:induction false} SortStable<T(!new)>(s: seq<T>, x: T, ge: (T, T) -> bool)
    requires TotalPreorder(ge)
    ensures EquivalentTo(SortBy(s, ge), x, ge) == EquivalentTo(s, x, ge)
  {
    if s != [] {
      var init, last := s[..|s| - 1], s[|s| - 1];
      SortStable(init, x, ge);
      SortByLast(s, ge);
      InsertStable(last, SortBy(init, ge), x, ge);
      EquivalentToLast(s, x, ge);
    }
  }

  lemma SortByLast<T(!new)>(s: seq<T>, ge: (T, T) -> bool)
    requires TotalPreorder(ge) && s != []
    ensures SortBy(s, ge) == Insert(s[|s| - 1], SortBy(s[..|s| - 1], ge), ge)
  {
  }

  lemma EquivalentToLast<T>(s: seq<T>, x: T, ge: (T, T) -> bool)
    requires s != []
    ensures EquivalentTo(s, x, ge) ==
            EquivalentTo(s[..|s| - 1], x, ge) + (if Equiv(ge, s[|s| - 1], x) then [s[|s| - 1]] else [])
  {
    var init, last := s[..|s| - 1], s[|s| - 1];
    assert s == init + [last];
    EquivalentToAppend(init, [last], x, ge);
    EquivalentToCons(last, [], x, ge);
    assert [last] + [] == [last];
  }
}
