/**
 * Python's `sorted(items, key=..., reverse=True)` over items whose key has already
 * been computed: a stable sort into descending key order, written as an insertion
 * sort.
 */
module Ranking {

  /** An item next to its sort key. */
  datatype Ranked<T> = Ranked(rank: real, item: T)

  predicate Descending<T>(s: seq<Ranked<T>>) {
    forall i, j :: 0 <= i < j < |s| ==> s[i].rank >= s[j].rank
  }

  /** The entries with the given key, in their order. */
  function WithRank<T>(s: seq<Ranked<T>>, r: real): seq<Ranked<T>> {
    if s == [] then [] else (if s[0].rank == r then [s[0]] else []) + WithRank(s[1..], r)
  }

  /** Puts `x` before the first entry whose key is not larger than its own. */
  function Insert<T>(x: Ranked<T>, s: seq<Ranked<T>>): (out: seq<Ranked<T>>)
    ensures |out| == |s| + 1
    ensures out[0] == x || (s != [] && out[0] == s[0])
    ensures multiset(out) == multiset(s) + multiset{x}
  {
    if s == [] || x.rank >= s[0].rank then [x] + s
    else
      assert s == [s[0]] + s[1..];
      [s[0]] + Insert(x, s[1..])
  }

  /** The entries by descending key, equal keys kept in their input order. */
  function Sort<T>(s: seq<Ranked<T>>): seq<Ranked<T>> {
    if s == [] then [] else Insert(s[0], Sort(s[1..]))
  }

  lemma {:induction false} InsertDescending<T>(x: Ranked<T>, s: seq<Ranked<T>>)
    requires Descending(s)
    ensures Descending(Insert(x, s))
  {
    if s != [] && x.rank < s[0].rank {
      InsertDescending(x, s[1..]);
      var rest := Insert(x, s[1..]);
      assert forall j :: 0 <= j < |rest| ==> rest[j].rank <= rest[0].rank;
      assert rest[0].rank <= s[0].rank;
    }
  }

  /** Inserting into a sorted run puts `x` after every entry with its key. */
  lemma {:induction false} InsertStable<T>(x: Ranked<T>, s: seq<Ranked<T>>, r: real)
    ensures WithRank(Insert(x, s), r) == (if x.rank == r then [x] else []) + WithRank(s, r)
  {
    if s == [] || x.rank >= s[0].rank {
      WithRankCons(x, s, r);
    } else {
      var y, rest := s[0], Insert(x, s[1..]);
      InsertStable(x, s[1..], r);
      WithRankCons(y, rest, r);
      assert s == [y] + s[1..];
      WithRankCons(y, s[1..], r);
      var xs, ys, w := (if x.rank == r then [x] else []), (if y.rank == r then [y] else []), WithRank(s[1..], r);
      assert WithRank(Insert(x, s), r) == ys + (xs + w);
      if x.rank == r {
        assert ys == [];
        assert ys + (xs + w) == xs + (ys + w);
      } else {
        assert xs == [];
        assert ys + (xs + w) == xs + (ys + w);
      }
    }
  }

  lemma WithRankCons<T>(y: Ranked<T>, u: seq<Ranked<T>>, r: real)
    ensures WithRank([y] + u, r) == (if y.rank == r then [y] else []) + WithRank(u, r)
  {
    assert ([y] + u)[1..] == u;
  }

  /**
   * The sort puts the keys in descending order, loses and adds nothing, and keeps
   * the entries of each key in their input order.
   */
  lemma SortRule<T>(s: seq<Ranked<T>>)
    ensures Descending(Sort(s))
    ensures multiset(Sort(s)) == multiset(s)
    ensures forall r :: WithRank(Sort(s), r) == WithRank(s, r)
  {
    SortDescending(s);
    SortPermutes(s);
    forall r ensures WithRank(Sort(s), r) == WithRank(s, r) {
      SortStable(s, r);
    }
  }

  lemma {:induction false} SortDescending<T>(s: seq<Ranked<T>>)
    ensures Descending(Sort(s))
  {
    if s != [] {
      SortDescending(s[1..]);
      InsertDescending(s[0], Sort(s[1..]));
    }
  }

  lemma {:induction false} SortPermutes<T>(s: seq<Ranked<T>>)
    ensures multiset(Sort(s)) == multiset(s)
  {
    if s != [] {
      SortPermutes(s[1..]);
      assert s == [s[0]] + s[1..];
    }
  }

  lemma {:induction false} SortStable<T>(s: seq<Ranked<T>>, r: real)
    ensures WithRank(Sort(s), r) == WithRank(s, r)
  {
    if s != [] {
      SortStable(s[1..], r);
      InsertStable(s[0], Sort(s[1..]), r);
    }
  }

  /** The items, keys dropped. */
  function Items<T>(s: seq<Ranked<T>>): (items: seq<T>)
    ensures |items| == |s|
    ensures forall i :: 0 <= i < |s| ==> items[i] == s[i].item
  {
    seq(|s|, i requires 0 <= i < |s| => s[i].item)
  }
}
