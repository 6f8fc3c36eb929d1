/** Generic list building blocks shared by the scanners: keeping the results of a
    partial map, and concatenating per-element lists, both in input order. */
module Lists {
  import opened Wrappers

  /** The defined results of `f` over `s`, in order (a loop that appends when it finds something). */
  function Keep<A, R>(f: A -> Option<R>, s: seq<A>): seq<R> {
    if s == [] then []
    else
      var last := f(s[|s| - 1]);
      Keep(f, s[..|s| - 1]) + (if last.Some? then [last.value] else [])
  }

  /** The lists `f` gives for the elements of `s`, concatenated in order. */
  function FlatMap<A, R>(f: A -> seq<R>, s: seq<A>): seq<R> {
    if s == [] then [] else FlatMap(f, s[..|s| - 1]) + f(s[|s| - 1])
  }

  lemma KeepMembers<A, R>(f: A -> Option<R>, s: seq<A>)
    ensures forall r :: r in Keep(f, s) <==> exists i :: 0 <= i < |s| && f(s[i]) == Some(r)
  {
    forall r ensures r in Keep(f, s) <==> exists i :: 0 <= i < |s| && f(s[i]) == Some(r) {
      KeepMember(f, s, r);
    }
  }

  lemma {:induction false} KeepMember<A, R>(f: A -> Option<R>, s: seq<A>, r: R)
    ensures r in Keep(f, s) <==> exists i :: 0 <= i < |s| && f(s[i]) == Some(r)
  {
    if s != [] {
      var init, n := s[..|s| - 1], |s| - 1;
      KeepMember(f, init, r);
      assert Keep(f, s) == Keep(f, init) + (if f(s[n]).Some? then [f(s[n]).value] else []);
      if r in Keep(f, init) {
        var i :| 0 <= i < |init| && f(init[i]) == Some(r);
        assert s[i] == init[i];
      } else if f(s[n]) == Some(r) {
        assert 0 <= n < |s| && f(s[n]) == Some(r);
      }
      if exists i :: 0 <= i < |s| && f(s[i]) == Some(r) {
        var i :| 0 <= i < |s| && f(s[i]) == Some(r);
        if i < n {
          assert init[i] == s[i];
        }
      }
    }
  }

  /** Keeping with a function that never drops anything is mapping. */
  lemma {:induction false} KeepTotal<A, R>(f: A -> Option<R>, s: seq<A>)
    requires forall i :: 0 <= i < |s| ==> f(s[i]).Some?
    ensures |Keep(f, s)| == |s|
    ensures forall i :: 0 <= i < |s| ==> Keep(f, s)[i] == f(s[i]).value
  {
    if s != [] {
      var init, n := s[..|s| - 1], |s| - 1;
      assert forall i :: 0 <= i < |init| ==> init[i] == s[i];
      KeepTotal(f, init);
      assert Keep(f, s) == Keep(f, init) + [f(s[n]).value];
    }
  }

  lemma {:induction false} KeepLength<A, R>(f: A -> Option<R>, s: seq<A>)
    ensures |Keep(f, s)| <= |s|
    ensures (forall i :: 0 <= i < |s| ==> f(s[i]).Some?) ==> |Keep(f, s)| == |s|
  {
    if s != [] {
      KeepLength(f, s[..|s| - 1]);
    }
  }

  lemma FlatMapMembers<A, R>(f: A -> seq<R>, s: seq<A>)
    ensures forall r :: r in FlatMap(f, s) <==> exists i :: 0 <= i < |s| && r in f(s[i])
  {
    forall r ensures r in FlatMap(f, s) <==> exists i :: 0 <= i < |s| && r in f(s[i]) {
      FlatMapMember(f, s, r);
    }
  }

  lemma {:induction false} FlatMapMember<A, R>(f: A -> seq<R>, s: seq<A>, r: R)
    ensures r in FlatMap(f, s) <==> exists i :: 0 <= i < |s| && r in f(s[i])
  {
    if s != [] {
      var init, n := s[..|s| - 1], |s| - 1;
      FlatMapMember(f, init, r);
      assert FlatMap(f, s) == FlatMap(f, init) + f(s[n]);
      if r in FlatMap(f, init) {
        var i :| 0 <= i < |init| && r in f(init[i]);
        assert s[i] == init[i];
      } else if r in f(s[n]) {
        assert 0 <= n < |s| && r in f(s[n]);
      }
      if exists i :: 0 <= i < |s| && r in f(s[i]) {
        var i :| 0 <= i < |s| && r in f(s[i]);
        if i < n {
          assert init[i] == s[i];
        }
      }
    }
  }

  /** Keeping distributes over concatenation: the results keep the order of the input. */
  lemma {:induction false} KeepAppend<A, R>(f: A -> Option<R>, a: seq<A>, b: seq<A>)
    ensures Keep(f, a + b) == Keep(f, a) + Keep(f, b)
  {
    if b == [] {
      assert a + b == a;
    } else {
      assert (a + b)[..|a + b| - 1] == a + b[..|b| - 1];
      KeepAppend(f, a, b[..|b| - 1]);
    }
  }

  /** Concatenation of the per-element lists distributes over concatenation of the input. */
  lemma {:induction false} FlatMapAppend<A, R>(f: A -> seq<R>, a: seq<A>, b: seq<A>)
    ensures FlatMap(f, a + b) == FlatMap(f, a) + FlatMap(f, b)
  {
    if b == [] {
      assert a + b == a;
    } else {
      assert (a + b)[..|a + b| - 1] == a + b[..|b| - 1];
      FlatMapAppend(f, a, b[..|b| - 1]);
    }
  }

  predicate Distinct<T(==)>(s: seq<T>) {
    forall i, j :: 0 <= i < j < |s| ==> s[i] != s[j]
  }

  // ---- Dictionaries that remember insertion order, as sequences of pairs ----

  function Keys<K, V>(d: seq<(K, V)>): (r: seq<K>)
    ensures |r| == |d|
    ensures forall i :: 0 <= i < |d| ==> r[i] == d[i].0
  {
    if d == [] then [] else [d[0].0] + Keys(d[1..])
  }

  /** The value stored under `k`, if any. */
  function Lookup<K(==), V>(d: seq<(K, V)>, k: K): Option<V> {
    if d == [] then None else if d[0].0 == k then Some(d[0].1) else Lookup(d[1..], k)
  }

  /** `d[k] = v`: an existing key keeps its place and gets the new value; a new key goes last. */
  function Put<K(==), V>(d: seq<(K, V)>, k: K, v: V): seq<(K, V)> {
    if d == [] then [(k, v)]
    else if d[0].0 == k then [(k, v)] + d[1..]
    else [d[0]] + Put(d[1..], k, v)
  }

  lemma {:induction false} LookupKeys<K, V>(d: seq<(K, V)>, k: K)
    ensures Lookup(d, k).Some? <==> k in Keys(d)
  {
    if d != [] {
      LookupKeys(d[1..], k);
      assert Keys(d) == [d[0].0] + Keys(d[1..]);
    }
  }

  /** After `Put`, `k` maps to `v` and every other key keeps its value. */
  lemma {:induction false} PutLookup<K, V>(d: seq<(K, V)>, k: K, v: V, k2: K)
    ensures Lookup(Put(d, k, v), k2) == if k2 == k then Some(v) else Lookup(d, k2)
  {
    if d != [] && d[0].0 != k {
      PutLookup(d[1..], k, v, k2);
    }
  }

  /** `Put` keeps the key order: an existing key stays where it is, a new one is appended. */
  lemma {:induction false} PutKeys<K, V>(d: seq<(K, V)>, k: K, v: V)
    ensures Keys(Put(d, k, v)) == if k in Keys(d) then Keys(d) else Keys(d) + [k]
  {
    if d != [] {
      assert Keys(d) == [d[0].0] + Keys(d[1..]);
      if d[0].0 != k {
        PutKeys(d[1..], k, v);
        assert Put(d, k, v) == [d[0]] + Put(d[1..], k, v);
        assert Keys(Put(d, k, v)) == [d[0].0] + Keys(Put(d[1..], k, v));
      } else {
        assert Keys(Put(d, k, v)) == [k] + Keys(d[1..]);
      }
    }
  }

  /** Hence no key is ever stored twice. */
  lemma PutDistinct<K, V>(d: seq<(K, V)>, k: K, v: V)
    requires Distinct(Keys(d))
    ensures Distinct(Keys(Put(d, k, v)))
  {
    PutKeys(d, k, v);
    if k !in Keys(d) {
      DistinctSnoc(Keys(d), k);
    }
  }

  lemma DistinctSnoc<T>(s: seq<T>, x: T)
    requires Distinct(s) && x !in s
    ensures Distinct(s + [x])
  {
    var t := s + [x];
    forall i, j | 0 <= i < j < |t| ensures t[i] != t[j] {
      assert t[i] == s[i];
      if j < |s| { assert t[j] == s[j]; }
    }
  }
}
