/** Positions of tags, tables holding one position per tag, and the last-writer-wins
    rule that the database upsert, the browser's live map and the history player share:
    a position replaces the stored one unless the stored one is strictly newer. */
module Positions {
  type Tag = string

  /** One position; `data` stands for every column besides the tag and the timestamp. */
  datatype Position = Position(tag: Tag, ts: int, data: string)

  type Table = map<Tag, Position>

  datatype Option<+T> = None | Some(value: T)

  function Upsert(t: Table, p: Position): Table {
    if p.tag in t && t[p.tag].ts > p.ts then t else t[p.tag := p]
  }

  /** The table after applying `ps` in order. */
  function Fold(t: Table, ps: seq<Position>): Table {
    if ps == [] then t else Upsert(Fold(t, ps[..|ps| - 1]), ps[|ps| - 1])
  }

  /** Every tag of `a` is in `b` with a timestamp at least as new. */
  ghost predicate Behind(a: Table, b: Table) {
    forall k :: k in a ==> k in b && a[k].ts <= b[k].ts
  }

  ghost predicate SameTimes(a: Table, b: Table) {
    a.Keys == b.Keys && forall k :: k in a ==> a[k].ts == b[k].ts
  }

  /** Every row of the table is one of `ps`. */
  ghost predicate DrawnFrom(t: Table, ps: seq<Position>) {
    forall k :: k in t ==> t[k] in ps && t[k].tag == k
  }

  /** No two different records share a tag's newest timestamp. */
  ghost predicate TopDetermined(ps: seq<Position>) {
    forall p, q :: p in ps && q in ps && p.tag == q.tag && p.ts == q.ts && Newest(ps, p) ==> p == q
  }

  ghost predicate Newest(ps: seq<Position>, p: Position) {
    p in ps && forall r :: r in ps && r.tag == p.tag ==> r.ts <= p.ts
  }

  ghost predicate SameElements(a: seq<Position>, b: seq<Position>) {
    forall p :: p in a <==> p in b
  }

  /** Index `i` holds the last-applied record among those with the newest timestamp of `tag`. */
  ghost predicate Latest(ps: seq<Position>, tag: Tag, i: nat) {
    && i < |ps| && ps[i].tag == tag
    && (forall j :: 0 <= j < |ps| && ps[j].tag == tag ==> ps[j].ts <= ps[i].ts)
    && (forall j :: i < j < |ps| && ps[j].tag == tag ==> ps[j].ts < ps[i].ts)
  }

  lemma {:induction false} FoldAppend(t: Table, a: seq<Position>, b: seq<Position>)
    ensures Fold(t, a + b) == Fold(Fold(t, a), b)
  {
    if b == [] {
      assert a + b == a;
    } else {
      assert (a + b)[..|a + b| - 1] == a + b[..|b| - 1];
      FoldAppend(t, a, b[..|b| - 1]);
    }
  }

  lemma FoldOne(t: Table, a: seq<Position>, p: Position)
    ensures Fold(t, a + [p]) == Upsert(Fold(t, a), p)
  {
    assert (a + [p])[..|a|] == a;
  }

  /** What a fold holds for one tag: the maximum over the starting row and the applied
      positions, reached by one of them, and nothing for a tag neither mentions. */
  lemma {:induction false} FoldMax(t: Table, ps: seq<Position>, tag: Tag)
    ensures tag in Fold(t, ps) <==> tag in t || exists p :: p in ps && p.tag == tag
    ensures tag in t ==> t[tag].ts <= Fold(t, ps)[tag].ts
    ensures forall p :: p in ps && p.tag == tag ==> p.ts <= Fold(t, ps)[tag].ts
    ensures tag in Fold(t, ps) ==>
              (tag in t && Fold(t, ps)[tag] == t[tag]) || (Fold(t, ps)[tag] in ps && Fold(t, ps)[tag].tag == tag)
  {
    if ps != [] {
      var a, p := ps[..|ps| - 1], ps[|ps| - 1];
      FoldMax(t, a, tag);
      assert ps == a + [p];
    }
  }

  /** The fold reaches a bound it cannot exceed exactly when the start or one of `ps` carries it. */
  lemma FoldReaches(t: Table, ps: seq<Position>, tag: Tag, bound: int)
    requires tag in Fold(t, ps) ==> Fold(t, ps)[tag].ts <= bound
    ensures (tag in Fold(t, ps) && Fold(t, ps)[tag].ts == bound)
            <==> (tag in t && t[tag].ts == bound) || exists p :: p in ps && p.tag == tag && p.ts == bound
  {
    FoldMax(t, ps, tag);
  }

  lemma {:induction false} FoldHoldsLatest(ps: seq<Position>, tag: Tag, i: nat)
    requires Latest(ps, tag, i)
    ensures tag in Fold(map[], ps) && Fold(map[], ps)[tag] == ps[i]
  {
    var n := |ps| - 1;
    FoldMax(map[], ps[..n], tag);
    if i < n {
      FoldHoldsLatest(ps[..n], tag, i);
    }
  }

  lemma {:induction false} LatestExists(ps: seq<Position>, tag: Tag) returns (i: nat)
    requires exists p :: p in ps && p.tag == tag
    ensures Latest(ps, tag, i)
  {
    var n := |ps| - 1;
    var a, p := ps[..n], ps[n];
    if q :| q in a && q.tag == tag {
      i := LatestExists(a, tag);
      if p.tag == tag && ps[i].ts <= p.ts {
        i := n;
      }
    } else {
      i := n;
    }
  }

  /** The fold from an empty table is the index of the sequence: it has a row for exactly the
      tags mentioned, and the row is the last-applied record with the tag's newest timestamp. */
  lemma FoldIsIndex(ps: seq<Position>, tag: Tag)
    ensures tag in Fold(map[], ps) <==> exists p :: p in ps && p.tag == tag
    ensures tag in Fold(map[], ps) ==> exists i: nat :: Latest(ps, tag, i) && Fold(map[], ps)[tag] == ps[i]
  {
    FoldMax(map[], ps, tag);
    if tag in Fold(map[], ps) {
      var i := LatestExists(ps, tag);
      FoldHoldsLatest(ps, tag, i);
    }
  }

  /** Every row of the fold comes from the starting table or the applied positions. */
  lemma FoldDrawn(t: Table, ps: seq<Position>, source: seq<Position>)
    requires DrawnFrom(t, source)
    requires forall p :: p in ps ==> p in source
    ensures DrawnFrom(Fold(t, ps), source)
  {
    forall k | k in Fold(t, ps) ensures Fold(t, ps)[k] in source && Fold(t, ps)[k].tag == k {
      FoldMax(t, ps, k);
    }
  }

  /** More of the same records, in whatever order, can only bring newer timestamps. */
  lemma MoreIsNewer(a: seq<Position>, b: seq<Position>)
    requires forall p :: p in a ==> p in b
    ensures Behind(Fold(map[], a), Fold(map[], b))
  {
    forall k | k in Fold(map[], a) ensures k in Fold(map[], b) && Fold(map[], a)[k].ts <= Fold(map[], b)[k].ts {
      FoldMax(map[], a, k);
      FoldMax(map[], b, k);
    }
  }

  /** Any reordering and any repetition of the same records leads to the same timestamps. */
  lemma OrderInsensitiveTimes(a: seq<Position>, b: seq<Position>)
    requires SameElements(a, b)
    ensures SameTimes(Fold(map[], a), Fold(map[], b))
  {
    forall k ensures k in Fold(map[], a) <==> k in Fold(map[], b) {
      FoldMax(map[], a, k);
      FoldMax(map[], b, k);
    }
    forall k | k in Fold(map[], a) ensures Fold(map[], a)[k].ts == Fold(map[], b)[k].ts {
      FoldMax(map[], a, k);
      FoldMax(map[], b, k);
    }
  }

  /** Equal timestamps mean the very table of the log when no two records of it tie at a tag's
      newest timestamp. */
  lemma SameTimesSameNewest(a: Table, ps: seq<Position>)
    requires SameTimes(a, Fold(map[], ps)) && DrawnFrom(a, ps) && TopDetermined(ps)
    ensures a == Fold(map[], ps)
  {
    var b := Fold(map[], ps);
    forall k | k in a ensures a[k] == b[k] {
      assert k in b;
      FoldMax(map[], ps, k);
      assert Newest(ps, b[k]);
    }
  }

  /** The row of a tag, if any. */
  function RowOf(t: Table, tag: Tag): seq<Position> {
    if tag in t then [t[tag]] else []
  }

  lemma UpsertSameRow(a: Table, b: Table, p: Position, tag: Tag)
    requires RowOf(a, tag) == RowOf(b, tag)
    ensures RowOf(Upsert(a, p), tag) == RowOf(Upsert(b, p), tag)
  {
    assert tag in a ==> a[tag] == RowOf(a, tag)[0];
    assert tag in b ==> b[tag] == RowOf(b, tag)[0];
  }

  lemma FoldOneRow(t: Table, tag: Tag)
    requires tag in t ==> t[tag].tag == tag
    ensures RowOf(Fold(map[], RowOf(t, tag)), tag) == RowOf(t, tag)
  {
    if tag in t {
      FoldOne(map[], [], t[tag]);
      assert [] + [t[tag]] == RowOf(t, tag);
    }
  }

  /** A starting row counts as if it had been applied first. */
  lemma {:induction false} FoldFromRow(t: Table, ps: seq<Position>, tag: Tag)
    requires tag in t ==> t[tag].tag == tag
    ensures RowOf(Fold(t, ps), tag) == RowOf(Fold(map[], RowOf(t, tag) + ps), tag)
  {
    var row := RowOf(t, tag);
    if ps == [] {
      FoldOneRow(t, tag);
      assert row + ps == row;
    } else {
      var a, p := ps[..|ps| - 1], ps[|ps| - 1];
      FoldFromRow(t, a, tag);
      UpsertSameRow(Fold(t, a), Fold(map[], row + a), p, tag);
      FoldOne(map[], row + a, p);
      assert row + ps == (row + a) + [p];
    }
  }

  lemma SameRow(a: Table, b: Table, tag: Tag)
    requires RowOf(a, tag) == RowOf(b, tag)
    ensures tag in a <==> tag in b
    ensures tag in a ==> a[tag] == b[tag]
  {
    assert tag in a ==> a[tag] == RowOf(a, tag)[0];
  }

  /** Two folds hold the same record of a tag exactly when the last of its newest records is the
      same in both sequences. */
  lemma SameLatestIff(a: seq<Position>, b: seq<Position>, tag: Tag)
    requires tag in Fold(map[], a) && tag in Fold(map[], b)
    ensures Fold(map[], a)[tag] == Fold(map[], b)[tag]
            <==> forall i: nat, j: nat :: Latest(a, tag, i) && Latest(b, tag, j) ==> a[i] == b[j]
  {
    FoldIsIndex(a, tag);
    FoldIsIndex(b, tag);
    forall i: nat | Latest(a, tag, i) ensures Fold(map[], a)[tag] == a[i] {
      FoldHoldsLatest(a, tag, i);
    }
    forall j: nat | Latest(b, tag, j) ensures Fold(map[], b)[tag] == b[j] {
      FoldHoldsLatest(b, tag, j);
    }
  }

  lemma FoldIsNewest(ps: seq<Position>, tag: Tag)
    requires tag in Fold(map[], ps)
    ensures Newest(ps, Fold(map[], ps)[tag]) && Fold(map[], ps)[tag].tag == tag
  {
    FoldMax(map[], ps, tag);
  }

  /** The same records give the same table in any order when none tie at a tag's newest timestamp. */
  lemma SameElementsSameTable(a: seq<Position>, b: seq<Position>)
    requires SameElements(a, b) && TopDetermined(a)
    ensures TopDetermined(b) && Fold(map[], a) == Fold(map[], b)
  {
    OrderInsensitiveTimes(a, b);
    forall k | k in Fold(map[], a) ensures Fold(map[], a)[k] == Fold(map[], b)[k] {
      FoldIsNewest(a, k);
      FoldIsNewest(b, k);
    }
    forall p, q | p in b && q in b && p.tag == q.tag && p.ts == q.ts && Newest(b, p) ensures p == q {
      assert Newest(a, p);
    }
  }

  lemma LastOfTheTies(a: seq<Position>, p: Position)
    requires Newest(a, p)
    ensures p.tag in Fold(map[], a + [p]) && Fold(map[], a + [p])[p.tag] == p
  {
    FoldOne(map[], a, p);
    FoldMax(map[], a, p.tag);
  }

  /** Any order and any repetition gives this table. */
  ghost predicate OrderInsensitive(a: seq<Position>) {
    forall b :: SameElements(a, b) ==> Fold(map[], b) == Fold(map[], a)
  }

  lemma InsensitiveHoldsNewest(a: seq<Position>, p: Position)
    requires OrderInsensitive(a) && Newest(a, p)
    ensures p.tag in Fold(map[], a) && Fold(map[], a)[p.tag] == p
  {
    LastOfTheTies(a, p);
    assert SameElements(a, a + [p]);
  }

  /** The whole table, not only its timestamps, is independent of order and repetition exactly
      when no two different records tie at a tag's newest timestamp. */
  lemma OrderInsensitiveIff(a: seq<Position>)
    ensures OrderInsensitive(a) <==> TopDetermined(a)
  {
    if TopDetermined(a) {
      forall b | SameElements(a, b) ensures Fold(map[], b) == Fold(map[], a) {
        SameElementsSameTable(a, b);
      }
    } else if OrderInsensitive(a) {
      var p, q :| p in a && q in a && p.tag == q.tag && p.ts == q.ts && Newest(a, p) && p != q;
      assert Newest(a, q);
      InsensitiveHoldsNewest(a, p);
      InsensitiveHoldsNewest(a, q);
      assert false;
    }
  }
}
