/** The database: the append-only event log and the table of current positions, written in one
    transaction per envelope. */
module Repository {
  import opened Positions
  import opened Snapshots

  /** Where, if anywhere, a write fails. */
  datatype Fault = NoFault | OnInsert | OnUpsert | OnCommit

  /** How the database orders tags: whether the first comes no later than the second. */
  type Collation = (Tag, Tag) -> bool

  ghost predicate TotalOrder(before: Collation) {
    && (forall a, b :: before(a, b) || before(b, a))
    && (forall a, b :: before(a, b) && before(b, a) ==> a == b)
    && (forall a, b, c :: before(a, b) && before(b, c) ==> before(a, c))
  }

  ghost predicate First(before: Collation, tags: set<Tag>, first: Tag) {
    first in tags && forall tag :: tag in tags ==> before(first, tag)
  }

  lemma {:induction false} SomeTagIsFirst(before: Collation, tags: set<Tag>) returns (first: Tag)
    requires TotalOrder(before) && tags != {}
    ensures First(before, tags, first)
    decreases |tags|
  {
    var tag :| tag in tags;
    if tags == {tag} {
      first := tag;
    } else {
      var other := SomeTagIsFirst(before, tags - {tag});
      first := if before(tag, other) then tag else other;
    }
  }

  ghost predicate InOrder(before: Collation, rows: seq<Position>) {
    forall i, j :: 0 <= i < j < |rows| ==> before(rows[i].tag, rows[j].tag)
  }

  class Database {
    var log: seq<Position>
    var current: Table
    const before: Collation

    ghost predicate Valid()
      reads this
    {
      current == Fold(map[], log)
    }

    constructor (before: Collation)
      ensures Valid() && log == [] && current == map[] && this.before == before
    {
      this.before := before;
      log := [];
      current := map[];
    }

    /** A tag without a row gets one; a row gives way to any record that is not older, so of two with
        equal timestamps the later write stays. */
    method UpsertCurrentPosition(rows: Table, p: Position) returns (rows': Table)
      ensures rows' == Upsert(rows, p)
    {
      rows' := rows;
      if p.tag !in rows {
        rows' := rows[p.tag := p];
      } else if p.ts >= rows[p.tag].ts {
        rows' := rows[p.tag := p];
      }
    }

    /** Both statements take effect together at the commit, or neither does. The table stays the
        index of the log, so for every tag it holds the last-applied of the newest events. */
    method PersistEnvelope(p: Position, fault: Fault) returns (ok: bool)
      requires Valid()
      modifies this
      ensures Valid() && (ok <==> fault.NoFault?)
      ensures log == if ok then old(log) + [p] else old(log)
      ensures current == if ok then Upsert(old(current), p) else old(current)
      ensures Behind(old(current), current)
    {
      FoldOne(map[], log, p);
      if fault.OnInsert? { return false; }
      var events := log + [p];
      if fault.OnUpsert? { return false; }
      var rows := UpsertCurrentPosition(current, p);
      if fault.OnCommit? { return false; }
      log, current := events, rows;
      ok := true;
    }

    /** The table without the tags in `rest`. */
    ghost function Listed(rest: set<Tag>): Table
      reads this
    {
      map k | k in current && k !in rest :: current[k]
    }

    /** `rows` lists the table except for the tags in `rest`, all of which come later. */
    ghost predicate ListedBut(rows: seq<Position>, rest: set<Tag>)
      reads this
    {
      && rest <= current.Keys
      && Lists(rows, Listed(rest))
      && InOrder(before, rows)
      && forall i, k :: 0 <= i < |rows| && k in rest ==> before(rows[i].tag, k)
    }

    lemma ListedMore(rest: set<Tag>, tag: Tag)
      requires rest <= current.Keys && tag in rest
      ensures tag in Listed(rest - {tag}) && Listed(rest - {tag})[tag] == current[tag]
      ensures Listed(rest - {tag}) - {tag} == Listed(rest)
    {
    }

    lemma ListNext(rows: seq<Position>, rest: set<Tag>, tag: Tag)
      requires TotalOrder(before) && ListedBut(rows, rest) && First(before, rest, tag) && current[tag].tag == tag
      ensures ListedBut(rows + [current[tag]], rest - {tag})
    {
      ListedMore(rest, tag);
      ListsOneMore(rows, Listed(rest - {tag}), tag);
    }

    method GetAllCurrentPositions() returns (rows: seq<Position>)
      requires Valid() && TotalOrder(before)
      ensures Lists(rows, current) && InOrder(before, rows)
    {
      rows := [];
      var rest := current.Keys;
      FoldDrawn(map[], log, log);
      while rest != {}
        invariant ListedBut(rows, rest)
      {
        ghost var first := SomeTagIsFirst(before, rest);
        var tag :| tag in rest && forall k :: k in rest ==> before(tag, k);
        ListNext(rows, rest, tag);
        rows := rows + [current[tag]];
        rest := rest - {tag};
      }
      assert Listed(rest) == current;
    }
  }
}
