/** The watchlist of the command-line driver (scanner/main.py): sectors, in dictionary order,
    each with its tickers, flattened into the one list the scanners take. */
module Watchlist {

  /** The sector-grouped watchlist: sector names with their tickers, in dictionary order. */
  type Sectors = seq<(string, seq<string>)>

  /** `flatten_watchlist`: every sector's tickers, sector after sector. */
  function Flatten(watchlist: Sectors): seq<string> {
    if watchlist == [] then [] else Flatten(watchlist[..|watchlist| - 1]) + watchlist[|watchlist| - 1].1
  }

  /** The number of tickers listed over all sectors, duplicates included. */
  function TotalListed(watchlist: Sectors): nat {
    if watchlist == [] then 0 else |watchlist[0].1| + TotalListed(watchlist[1..])
  }

  /** Flattening distributes over concatenation of the sectors: sector order is kept, and
      within a sector the list order. */
  lemma {:induction false} FlattenAppend(a: Sectors, b: Sectors)
    ensures Flatten(a + b) == Flatten(a) + Flatten(b)
  {
    if b == [] {
      assert a + b == a;
    } else {
      assert (a + b)[..|a + b| - 1] == a + b[..|b| - 1];
      FlattenAppend(a, b[..|b| - 1]);
    }
  }

  /** The flattened list is the first sector's tickers followed by the rest flattened. */
  lemma FlattenCons(watchlist: Sectors)
    requires watchlist != []
    ensures Flatten(watchlist) == watchlist[0].1 + Flatten(watchlist[1..])
  {
    assert watchlist == [watchlist[0]] + watchlist[1..];
    FlattenAppend([watchlist[0]], watchlist[1..]);
  }

  /** The output has one entry per listed ticker, duplicates across sectors kept. */
  lemma {:induction false} FlattenLength(watchlist: Sectors)
    ensures |Flatten(watchlist)| == TotalListed(watchlist)
  {
    if watchlist != [] {
      FlattenCons(watchlist);
      FlattenLength(watchlist[1..]);
    }
  }

  /** A ticker is in the output exactly when some sector lists it. */
  lemma {:induction false} FlattenMembers(watchlist: Sectors, t: string)
    ensures t in Flatten(watchlist) <==> exists i :: 0 <= i < |watchlist| && t in watchlist[i].1
  {
    if watchlist != [] {
      var init := watchlist[..|watchlist| - 1];
      FlattenMembers(init, t);
      if t in Flatten(init) {
        var i :| 0 <= i < |init| && t in init[i].1;
        assert watchlist[i] == init[i];
      }
      if exists i :: 0 <= i < |watchlist| && t in watchlist[i].1 {
        var i :| 0 <= i < |watchlist| && t in watchlist[i].1;
        if i < |init| {
          assert init[i] == watchlist[i];
        }
      }
    }
  }

  /** A ticker listed by two sectors appears twice: the output does not deduplicate. */
  lemma DuplicatesKept(s1: string, s2: string, t: string)
    ensures Flatten([(s1, [t]), (s2, [t])]) == [t, t]
  {
    var w := [(s1, [t]), (s2, [t])];
    FlattenCons(w);
    assert w[1..] == [(s2, [t])];
    FlattenCons(w[1..]);
    assert w[1..][1..] == [];
  }

  /** An empty watchlist, or one whose sectors are all empty, gives no tickers. */
  lemma FlattenEmpty(watchlist: Sectors)
    ensures Flatten(watchlist) == [] <==> forall i :: 0 <= i < |watchlist| ==> watchlist[i].1 == []
  {
    FlattenLength(watchlist);
    if Flatten(watchlist) != [] {
      FlattenMembers(watchlist, Flatten(watchlist)[0]);
    } else {
      forall i | 0 <= i < |watchlist| ensures watchlist[i].1 == [] {
        if watchlist[i].1 != [] {
          FlattenMembers(watchlist, watchlist[i].1[0]);
        }
      }
    }
  }
}
