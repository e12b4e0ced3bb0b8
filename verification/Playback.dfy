/** The map a player shows at a moment: points sorted stably by time, scanned up to the first
    newer one. */
module Playback {
  import opened Positions
  import opened Sequences
  import opened Snapshots

  // Sorting.

  ghost predicate Ascending(ps: seq<Position>) {
    forall i, j :: 0 <= i < j < |ps| ==> ps[i].ts <= ps[j].ts
  }

  /** `p` goes after everything that is not newer. */
  function InsertSorted(ps: seq<Position>, p: Position): seq<Position> {
    if ps == [] || ps[|ps| - 1].ts <= p.ts then ps + [p]
    else InsertSorted(ps[..|ps| - 1], p) + [ps[|ps| - 1]]
  }

  /** The stable sort by timestamp. */
  function Sorted(ps: seq<Position>): seq<Position> {
    if ps == [] then [] else InsertSorted(Sorted(ps[..|ps| - 1]), ps[|ps| - 1])
  }

  /** Accepts the points with timestamp `ts`. */
  function AtTime(ts: int): Position -> bool {
    (p: Position) => p.ts == ts
  }

  /** Accepts the points at or before a moment. */
  function Until(at: real): Position -> bool {
    (p: Position) => p.ts as real <= at
  }

  function UpTo(ps: seq<Position>, at: real): seq<Position> {
    Filter(Until(at), ps)
  }

  lemma {:induction false} InsertSortedMembers(ps: seq<Position>, p: Position)
    ensures multiset(InsertSorted(ps, p)) == multiset(ps) + multiset{p}
    ensures forall q :: q in InsertSorted(ps, p) <==> q == p || q in ps
  {
    if !(ps == [] || ps[|ps| - 1].ts <= p.ts) {
      InsertSortedMembers(ps[..|ps| - 1], p);
      assert ps == ps[..|ps| - 1] + [ps[|ps| - 1]];
    }
  }

  lemma {:induction false} InsertSortedAscends(ps: seq<Position>, p: Position)
    requires Ascending(ps)
    ensures Ascending(InsertSorted(ps, p))
  {
    if !(ps == [] || ps[|ps| - 1].ts <= p.ts) {
      var n := |ps| - 1;
      var rest := InsertSorted(ps[..n], p);
      InsertSortedAscends(ps[..n], p);
      InsertSortedMembers(ps[..n], p);
      forall i | 0 <= i < |rest| ensures rest[i].ts <= ps[n].ts {
        assert rest[i] in rest;
      }
    }
  }

  /** A newest element is inserted at the end. */
  lemma InsertSortedLast(some: seq<Position>, p: Position)
    requires forall q :: q in some ==> q.ts <= p.ts
    ensures InsertSorted(some, p) == some + [p]
  {
    if some != [] {
      assert some[|some| - 1] in some;
    }
  }

  lemma InsertSortedBefore(ps: seq<Position>, p: Position, last: Position)
    requires last.ts > p.ts
    ensures InsertSorted(ps + [last], p) == InsertSorted(ps, p) + [last]
  {
    assert (ps + [last])[..|ps|] == ps;
  }

  lemma InsertSortedFilterStep(keep: Position -> bool, before: seq<Position>, p: Position, last: Position)
    requires last.ts > p.ts
    requires Filter(keep, InsertSorted(before, p)) == if keep(p) then InsertSorted(Filter(keep, before), p) else Filter(keep, before)
    ensures Filter(keep, InsertSorted(before + [last], p))
            == if keep(p) then InsertSorted(Filter(keep, before + [last]), p) else Filter(keep, before + [last])
  {
    InsertSortedBefore(before, p, last);
    FilterOne(keep, InsertSorted(before, p), last);
    FilterOne(keep, before, last);
    if keep(last) {
      InsertSortedBefore(Filter(keep, before), p, last);
    }
  }

  lemma InsertSortedFilterEnd(keep: Position -> bool, ps: seq<Position>, p: Position)
    requires Ascending(ps) && (ps == [] || ps[|ps| - 1].ts <= p.ts)
    ensures Filter(keep, InsertSorted(ps, p)) == if keep(p) then InsertSorted(Filter(keep, ps), p) else Filter(keep, ps)
  {
    FilterOne(keep, ps, p);
    FilterMembers(keep, ps);
    InsertSortedLast(Filter(keep, ps), p);
  }

  /** Inserting and filtering commute, whatever is filtered out. */
  lemma {:induction false} InsertSortedFilter(keep: Position -> bool, ps: seq<Position>, p: Position)
    requires Ascending(ps)
    ensures Filter(keep, InsertSorted(ps, p)) == if keep(p) then InsertSorted(Filter(keep, ps), p) else Filter(keep, ps)
  {
    if ps == [] || ps[|ps| - 1].ts <= p.ts {
      InsertSortedFilterEnd(keep, ps, p);
    } else {
      InsertSortedFilter(keep, ps[..|ps| - 1], p);
      InsertSortedFilterStep(keep, ps[..|ps| - 1], p, ps[|ps| - 1]);
      assert ps[..|ps| - 1] + [ps[|ps| - 1]] == ps;
    }
  }

  lemma SortedOneMore(ps: seq<Position>, p: Position)
    ensures Sorted(ps + [p]) == InsertSorted(Sorted(ps), p)
  {
    assert (ps + [p])[..|ps|] == ps;
  }

  lemma {:induction false} SortedAscends(ps: seq<Position>)
    ensures Ascending(Sorted(ps))
  {
    if ps != [] {
      SortedAscends(ps[..|ps| - 1]);
      InsertSortedAscends(Sorted(ps[..|ps| - 1]), ps[|ps| - 1]);
    }
  }

  lemma {:induction false} SortedIsPermutation(ps: seq<Position>)
    ensures multiset(Sorted(ps)) == multiset(ps)
  {
    if ps != [] {
      SortedIsPermutation(ps[..|ps| - 1]);
      InsertSortedMembers(Sorted(ps[..|ps| - 1]), ps[|ps| - 1]);
      assert ps == ps[..|ps| - 1] + [ps[|ps| - 1]];
    }
  }

  lemma SortedFilterStep(keep: Position -> bool, a: seq<Position>, p: Position)
    requires Filter(keep, Sorted(a)) == Sorted(Filter(keep, a))
    ensures Filter(keep, Sorted(a + [p])) == Sorted(Filter(keep, a + [p]))
  {
    SortedAscends(a);
    SortedOneMore(a, p);
    InsertSortedFilter(keep, Sorted(a), p);
    FilterOne(keep, a, p);
    if keep(p) {
      SortedOneMore(Filter(keep, a), p);
    }
  }

  lemma SortedFilterLast(keep: Position -> bool, ps: seq<Position>)
    requires ps != [] && Filter(keep, Sorted(ps[..|ps| - 1])) == Sorted(Filter(keep, ps[..|ps| - 1]))
    ensures Filter(keep, Sorted(ps)) == Sorted(Filter(keep, ps))
  {
    SortedFilterStep(keep, ps[..|ps| - 1], ps[|ps| - 1]);
    assert ps == ps[..|ps| - 1] + [ps[|ps| - 1]];
  }

  /** Sorting and filtering commute. */
  lemma {:induction false} SortedFilter(keep: Position -> bool, ps: seq<Position>)
    ensures Filter(keep, Sorted(ps)) == Sorted(Filter(keep, ps))
  {
    if ps != [] {
      SortedFilter(keep, ps[..|ps| - 1]);
      SortedFilterLast(keep, ps);
    }
  }

  lemma {:induction false} SortedTies(ps: seq<Position>, ts: int)
    requires forall q :: q in ps ==> q.ts == ts
    ensures Sorted(ps) == ps
  {
    if ps != [] {
      var a, p := ps[..|ps| - 1], ps[|ps| - 1];
      assert ps == a + [p] && p in ps;
      SortedTies(a, ts);
      InsertSortedLast(a, p);
    }
  }

  /** Sorting puts the points in time order, keeps every one of them, and keeps the order of the
      points that share a timestamp. */
  lemma SortedIsStable(ps: seq<Position>, ts: int)
    ensures Ascending(Sorted(ps))
    ensures multiset(Sorted(ps)) == multiset(ps)
    ensures Filter(AtTime(ts), Sorted(ps)) == Filter(AtTime(ts), ps)
  {
    SortedAscends(ps);
    SortedIsPermutation(ps);
    SortedFilter(AtTime(ts), ps);
    FilterMembers(AtTime(ts), ps);
    SortedTies(Filter(AtTime(ts), ps), ts);
  }

  // The map at a moment.

  /** How many leading points the scan takes before it stops at the first one not accepted. */
  function ScanLength(keep: Position -> bool, ps: seq<Position>): (n: nat)
    ensures n <= |ps|
    ensures forall i :: 0 <= i < n ==> keep(ps[i])
    ensures n < |ps| ==> !keep(ps[n])
  {
    if ps == [] || !keep(ps[0]) then 0 else 1 + ScanLength(keep, ps[1..])
  }

  lemma {:induction false} ScanStops(keep: Position -> bool, ps: seq<Position>, n: nat)
    requires n <= |ps| && (forall i :: 0 <= i < n ==> keep(ps[i])) && (n < |ps| ==> !keep(ps[n]))
    ensures ScanLength(keep, ps) == n
  {
    if n > 0 {
      ScanStops(keep, ps[1..], n - 1);
    }
  }

  /** The map shown at a moment: the last scanned point of every tag. */
  function PositionsAt(ps: seq<Position>, at: real): Table {
    TableOf(ps[..ScanLength(Until(at), ps)])
  }

  lemma FilterTakesPrefix(keep: Position -> bool, ps: seq<Position>, n: nat)
    requires n <= |ps| && (forall i :: 0 <= i < n ==> keep(ps[i])) && (forall i :: n <= i < |ps| ==> !keep(ps[i]))
    ensures Filter(keep, ps) == ps[..n]
  {
    FilterAll(keep, ps[..n]);
    FilterNone(keep, ps[n..]);
    FilterAppend(keep, ps[..n], ps[n..]);
    assert ps == ps[..n] + ps[n..];
  }

  /** In time order, what the scan takes is everything at or before the moment. */
  lemma ScanTakesUpTo(ps: seq<Position>, at: real)
    requires Ascending(ps)
    ensures ps[..ScanLength(Until(at), ps)] == UpTo(ps, at)
  {
    var n := ScanLength(Until(at), ps);
    forall i | n <= i < |ps| ensures !Until(at)(ps[i]) {
      assert ps[n].ts <= ps[i].ts || i == n;
    }
    FilterTakesPrefix(Until(at), ps, n);
  }

  /** Setting points one after the other in time order is last-writer-wins. */
  lemma {:induction false} AscendingTable(ps: seq<Position>)
    requires Ascending(ps)
    ensures TableOf(ps) == Fold(map[], ps)
  {
    if ps != [] {
      var n := |ps| - 1;
      AscendingTable(ps[..n]);
      FoldMax(map[], ps[..n], ps[n].tag);
      if ps[n].tag in TableOf(ps[..n]) {
        var i :| 0 <= i < n && ps[..n][i] == TableOf(ps[..n])[ps[n].tag];
        assert ps[i].ts <= ps[n].ts;
      }
    }
  }

  lemma TableOfOne(ps: seq<Position>, p: Position)
    ensures TableOf(ps + [p]) == TableOf(ps)[p.tag := p]
  {
    assert (ps + [p])[..|ps|] == ps;
  }

  lemma NoneNewerThanLast(ps: seq<Position>, tag: Tag)
    requires Ascending(ps) && tag in TableOf(ps)
    ensures ps != [] && TableOf(ps)[tag].ts <= ps[|ps| - 1].ts
  {
    TimestampsOfTable(ps);
    var i :| 0 <= i < |ps| && ps[i] == TableOf(ps)[tag];
    assert ps[i].ts <= ps[|ps| - 1].ts;
  }

  lemma LastIsNewest(ps: seq<Position>, p: Position)
    requires Ascending(ps) && (ps == [] || ps[|ps| - 1].ts <= p.ts)
    ensures TableOf(ps + [p]) == Upsert(TableOf(ps), p)
  {
    TableOfOne(ps, p);
    if p.tag in TableOf(ps) {
      NoneNewerThanLast(ps, p.tag);
    }
  }

  lemma InsertedBeforeLast(before: seq<Position>, p: Position, last: Position)
    requires last.ts > p.ts && TableOf(InsertSorted(before, p)) == Upsert(TableOf(before), p)
    ensures TableOf(InsertSorted(before + [last], p)) == Upsert(TableOf(before + [last]), p)
  {
    InsertSortedBefore(before, p, last);
    TableOfOne(before, last);
    TableOfOne(InsertSorted(before, p), last);
  }

  /** Inserting behind everything not newer is one last-writer-wins step. */
  lemma {:induction false} InsertSortedTable(ps: seq<Position>, p: Position)
    requires Ascending(ps)
    ensures TableOf(InsertSorted(ps, p)) == Upsert(TableOf(ps), p)
  {
    if ps == [] || ps[|ps| - 1].ts <= p.ts {
      LastIsNewest(ps, p);
      assert InsertSorted(ps, p) == ps + [p];
    } else {
      var n := |ps| - 1;
      InsertSortedTable(ps[..n], p);
      InsertedBeforeLast(ps[..n], p, ps[n]);
      assert ps[..n] + [ps[n]] == ps;
    }
  }

  lemma {:induction false} SortedTable(ps: seq<Position>)
    ensures TableOf(Sorted(ps)) == Fold(map[], ps)
  {
    if ps != [] {
      SortedTable(ps[..|ps| - 1]);
      SortedAscends(ps[..|ps| - 1]);
      InsertSortedTable(Sorted(ps[..|ps| - 1]), ps[|ps| - 1]);
    }
  }

  /** The map shown for any points, in any order: the fold of those at or before the moment. So for
      each tag it is the newest such point, and of several the one that was loaded last. */
  lemma PlaybackMap(ps: seq<Position>, at: real)
    ensures PositionsAt(Sorted(ps), at) == Fold(map[], UpTo(ps, at))
  {
    SortedAscends(ps);
    ScanTakesUpTo(Sorted(ps), at);
    SortedFilter(Until(at), ps);
    SortedTable(UpTo(ps, at));
  }

  /** As time passes the map only gains tags and newer timestamps. */
  lemma PlaybackGrows(ps: seq<Position>, t0: real, t1: real)
    requires t0 <= t1
    ensures Behind(PositionsAt(Sorted(ps), t0), PositionsAt(Sorted(ps), t1))
  {
    PlaybackMap(ps, t0);
    PlaybackMap(ps, t1);
    FilterMembers(Until(t0), ps);
    FilterMembers(Until(t1), ps);
    MoreIsNewer(UpTo(ps, t0), UpTo(ps, t1));
  }
}
