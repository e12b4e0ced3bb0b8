/** The frames of the positions WebSocket: a snapshot of the current table first, then live
    positions, minus those the server's stale filter holds back. */
module Snapshots {
  import opened Positions
  import opened Sequences

  datatype Frame = Rows(rows: seq<Position>) | Live(p: Position)

  /** A live message without a tag or a timestamp is never held back; an unknown tag counts
      as having been seen at time 0. */
  predicate IsStale(tag: Option<Tag>, ts: Option<int>, snapshotTs: map<Tag, int>): (stale: bool)
    ensures tag.None? || ts.None? ==> !stale
  {
    if tag.None? || ts.None? then false
    else ts.value < if tag.value in snapshotTs then snapshotTs[tag.value] else 0
  }

  predicate Stale(p: Position, snapshotTs: map<Tag, int>) {
    IsStale(Some(p.tag), Some(p.ts), snapshotTs)
  }

  function SnapshotTimestamps(rows: seq<Position>): map<Tag, int> {
    if rows == [] then map[]
    else SnapshotTimestamps(rows[..|rows| - 1])[rows[|rows| - 1].tag := rows[|rows| - 1].ts]
  }

  /** The map a browser builds from the rows of a snapshot. */
  function TableOf(rows: seq<Position>): Table {
    if rows == [] then map[]
    else TableOf(rows[..|rows| - 1])[rows[|rows| - 1].tag := rows[|rows| - 1]]
  }

  /** `rows` is the content of the table, one row per tag, in some order. */
  ghost predicate Lists(rows: seq<Position>, t: Table) {
    && (forall i, j :: 0 <= i < j < |rows| ==> rows[i].tag != rows[j].tag)
    && (forall i :: 0 <= i < |rows| ==> rows[i].tag in t && t[rows[i].tag] == rows[i])
    && (forall k :: k in t ==> HasTag(rows, k))
  }

  ghost predicate HasTag(rows: seq<Position>, k: Tag) {
    exists i :: 0 <= i < |rows| && rows[i].tag == k
  }

  /** What remains of `ps` after the stale filter, in order. */
  function Fresh(ps: seq<Position>, snapshotTs: map<Tag, int>): seq<Position> {
    if ps == [] then []
    else Fresh(ps[..|ps| - 1], snapshotTs) + if Stale(ps[|ps| - 1], snapshotTs) then [] else [ps[|ps| - 1]]
  }

  function LiveFrames(ps: seq<Position>): seq<Frame> {
    seq(|ps|, i requires 0 <= i < |ps| => Live(ps[i]))
  }

  lemma FreshOne(ps: seq<Position>, p: Position, snapshotTs: map<Tag, int>)
    ensures Fresh(ps + [p], snapshotTs) == Fresh(ps, snapshotTs) + if Stale(p, snapshotTs) then [] else [p]
  {
    assert (ps + [p])[..|ps|] == ps;
  }

  lemma LiveFramesAppend(a: seq<Position>, b: seq<Position>)
    ensures LiveFrames(a + b) == LiveFrames(a) + LiveFrames(b)
  {
  }

  lemma FreshAppend(a: seq<Position>, b: seq<Position>, snapshotTs: map<Tag, int>)
    ensures Fresh(a + b, snapshotTs) == Fresh(a, snapshotTs) + Fresh(b, snapshotTs)
  {
    if b == [] {
      assert a + b == a;
    } else {
      assert (a + b)[..|a + b| - 1] == a + b[..|b| - 1];
    }
  }

  lemma {:induction false} FreshMembers(ps: seq<Position>, snapshotTs: map<Tag, int>)
    ensures forall p :: p in Fresh(ps, snapshotTs) <==> p in ps && !Stale(p, snapshotTs)
  {
    if ps != [] {
      FreshMembers(ps[..|ps| - 1], snapshotTs);
      assert ps == ps[..|ps| - 1] + [ps[|ps| - 1]];
    }
  }

  /** The server's timestamp map and the browser's table agree row by row. */
  lemma {:induction false} TimestampsOfTable(rows: seq<Position>)
    ensures SnapshotTimestamps(rows).Keys == TableOf(rows).Keys
    ensures forall k :: k in TableOf(rows) ==>
                          TableOf(rows)[k].tag == k && TableOf(rows)[k] in rows
                          && SnapshotTimestamps(rows)[k] == TableOf(rows)[k].ts
  {
    if rows != [] {
      TimestampsOfTable(rows[..|rows| - 1]);
    }
  }

  lemma HasTagLater(rows: seq<Position>, p: Position, k: Tag)
    ensures HasTag(rows + [p], k) <==> HasTag(rows, k) || p.tag == k
  {
    if p.tag == k {
      assert (rows + [p])[|rows|].tag == k;
    } else if HasTag(rows, k) {
      var i :| 0 <= i < |rows| && rows[i].tag == k;
      assert (rows + [p])[i].tag == k;
    }
  }

  lemma ListsOneMore(rows: seq<Position>, t: Table, tag: Tag)
    requires tag in t && t[tag].tag == tag && Lists(rows, t - {tag})
    ensures Lists(rows + [t[tag]], t)
  {
    forall i | 0 <= i < |rows| ensures rows[i].tag != tag && rows[i].tag in t && t[rows[i].tag] == rows[i] {
      assert rows[i].tag in t - {tag};
    }
    forall k | k in t ensures HasTag(rows + [t[tag]], k) {
      HasTagLater(rows, t[tag], k);
    }
  }

  /** Every table can be listed. */
  lemma {:induction false} TableHasListing(t: Table) returns (rows: seq<Position>)
    requires forall k :: k in t ==> t[k].tag == k
    ensures Lists(rows, t)
    decreases |t|
  {
    if t == map[] {
      rows := [];
    } else {
      var tag :| tag in t;
      var rest := TableHasListing(t - {tag});
      ListsOneMore(rest, t, tag);
      rows := rest + [t[tag]];
    }
  }

  lemma {:induction false} TableOfPrefix(rows: seq<Position>, t: Table, n: nat)
    requires Lists(rows, t) && n <= |rows|
    ensures forall k :: k in TableOf(rows[..n]) <==> exists i :: 0 <= i < n && rows[i].tag == k
    ensures forall k :: k in TableOf(rows[..n]) ==> k in t && TableOf(rows[..n])[k] == t[k]
  {
    if n > 0 {
      TableOfPrefix(rows, t, n - 1);
      assert rows[..n][..n - 1] == rows[..n - 1];
    }
  }

  /** A browser that receives a listing of a table rebuilds exactly that table. */
  lemma SnapshotRoundTrip(rows: seq<Position>, t: Table)
    requires Lists(rows, t)
    ensures TableOf(rows) == t
  {
    TableOfPrefix(rows, t, |rows|);
    assert rows[..|rows|] == rows;
  }

  // What the filter lets through, in numbers.

  /** The positions at least as new as the snapshot's row of their tag, or not negative if it has none. */
  function UpToDate(snapshot: Table): Position -> bool {
    (p: Position) => p.ts >= if p.tag in snapshot then snapshot[p.tag].ts else 0
  }

  /** The stale filter keeps exactly these, in order. */
  lemma {:induction false} FreshIsUpToDate(rows: seq<Position>, ps: seq<Position>)
    ensures Fresh(ps, SnapshotTimestamps(rows)) == Filter(UpToDate(TableOf(rows)), ps)
  {
    TimestampsOfTable(rows);
    if ps != [] {
      FreshIsUpToDate(rows, ps[..|ps| - 1]);
    }
  }

  /** What the filter can hide from the folded map at tag `k`: a record at a negative
      timestamp of a tag the snapshot does not know, and nothing else. */
  ghost predicate HidesOnlyNegative(t: Table, filtered: Table, full: Table, k: Tag) {
    && (k in t ==> k in filtered && t[k].ts <= filtered[k].ts)
    && (k in filtered ==> k in full && filtered[k] == full[k])
    && (k in filtered && k !in t ==> filtered[k].ts >= 0)
    && (k in full && k !in filtered ==> full[k].ts < 0)
  }

  lemma FilterStep(t: Table, snapshotTs: map<Tag, int>, filtered: Table, full: Table, p: Position, k: Tag)
    requires HidesOnlyNegative(t, filtered, full, k)
    requires snapshotTs.Keys == t.Keys && (k in t ==> snapshotTs[k] == t[k].ts)
    ensures HidesOnlyNegative(t, if Stale(p, snapshotTs) then filtered else Upsert(filtered, p), Upsert(full, p), k)
  {
  }

  lemma {:induction false} FilteredFold(rows: seq<Position>, ps: seq<Position>, k: Tag)
    ensures HidesOnlyNegative(TableOf(rows), Fold(TableOf(rows), Fresh(ps, SnapshotTimestamps(rows))), Fold(TableOf(rows), ps), k)
  {
    TimestampsOfTable(rows);
    if ps != [] {
      var a, p := ps[..|ps| - 1], ps[|ps| - 1];
      var t, m := TableOf(rows), SnapshotTimestamps(rows);
      FilteredFold(rows, a, k);
      FilterStep(t, m, Fold(t, Fresh(a, m)), Fold(t, a), p, k);
      FoldOne(t, Fresh(a, m), p);
      assert Fresh(ps, m) == if Stale(p, m) then Fresh(a, m) else Fresh(a, m) + [p];
    }
  }

  /** The tags the filter hides altogether. */
  lemma HiddenTags(rows: seq<Position>, ps: seq<Position>, k: Tag)
    ensures var t := TableOf(rows);
            k in Fold(t, ps) && k !in Fold(t, Fresh(ps, SnapshotTimestamps(rows)))
            <==> k !in t && (exists p :: p in ps && p.tag == k) && (forall q :: q in ps && q.tag == k ==> q.ts < 0)
  {
    var t, m := TableOf(rows), SnapshotTimestamps(rows);
    FilteredFold(rows, ps, k);
    FoldMax(t, ps, k);
    FoldMax(t, Fresh(ps, m), k);
    FreshMembers(ps, m);
    TimestampsOfTable(rows);
  }

  /** Every tag is known to the snapshot or streamed at least once at a timestamp >= 0. */
  ghost predicate NoTagOnlyNegative(t: Table, ps: seq<Position>) {
    forall p :: p in ps && p.tag !in t ==> exists q :: q in ps && q.tag == p.tag && q.ts >= 0
  }

  /** The filter is invisible, that is, the browser ends with the same map as without it,
      exactly when no tag reaches it at negative timestamps only. */
  lemma FilterInvisibleIff(rows: seq<Position>, ps: seq<Position>)
    ensures Fold(TableOf(rows), Fresh(ps, SnapshotTimestamps(rows))) == Fold(TableOf(rows), ps)
            <==> NoTagOnlyNegative(TableOf(rows), ps)
  {
    var t := TableOf(rows);
    var f, u := Fold(t, Fresh(ps, SnapshotTimestamps(rows))), Fold(t, ps);
    if NoTagOnlyNegative(t, ps) {
      forall k ensures k in f <==> k in u {
        HiddenTags(rows, ps, k);
        FilteredFold(rows, ps, k);
      }
      forall k | k in f ensures f[k] == u[k] {
        FilteredFold(rows, ps, k);
      }
    } else {
      var p :| p in ps && p.tag !in t && forall q :: q in ps && q.tag == p.tag ==> q.ts < 0;
      HiddenTags(rows, ps, p.tag);
    }
  }

  /** A concrete failure: a first report at time -1 of a tag the snapshot does not know. */
  lemma NegativeTimestampIsHidden()
    ensures var p := Position("tag", -1, "");
            Fold(TableOf([]), Fresh([p], SnapshotTimestamps([]))) == map[]
            && Fold(TableOf([]), [p]) == map["tag" := p]
  {
    var p := Position("tag", -1, "");
    assert [p][..0] == [];
    assert Fresh([], map[]) == [];
    assert Stale(p, map[]);
    assert Fold(map[], []) == map[];
  }
}
