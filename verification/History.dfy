/** Downloading a tag's history page by page while the event log keeps growing. */
module History {
  import opened Positions
  import opened Sequences

  const PAGE_SIZE: nat := 1000

  datatype Query = Query(tag: Tag, from: Option<int>, to: Option<int>)

  /** A condition on the timestamp that a query is given besides its tag. */
  datatype Clause = NotBefore(ts: int) | NotAfter(ts: int)

  function TimeFilters(from: Option<int>, to: Option<int>): seq<Clause> {
    (if from.Some? then [NotBefore(from.value)] else []) + (if to.Some? then [NotAfter(to.value)] else [])
  }

  predicate Holds(c: Clause, p: Position) {
    match c
    case NotBefore(ts) => p.ts >= ts
    case NotAfter(ts) => p.ts <= ts
  }

  /** Within the period, each end of which counts and may be open. */
  predicate Within(p: Position, from: Option<int>, to: Option<int>) {
    && (from.Some? ==> from.value <= p.ts)
    && (to.Some? ==> p.ts <= to.value)
  }

  /** The row has the tag and meets every clause: it is of the tag and within the period. */
  predicate Matches(q: Query, p: Position): (selected: bool)
    ensures selected <==> p.tag == q.tag && Within(p, q.from, q.to)
  {
    var clauses := TimeFilters(q.from, q.to);
    assert q.from.Some? ==> clauses[0] == NotBefore(q.from.value);
    assert q.to.Some? ==> clauses[|clauses| - 1] == NotAfter(q.to.value);
    p.tag == q.tag && forall i :: 0 <= i < |clauses| ==> Holds(clauses[i], p)
  }

  /** How the database breaks ties between equal timestamps: whether the row logged as number
      `a` comes before the row logged as number `b`. Any rule will do, as long as it stays. */
  type Tie = (nat, nat) -> bool

  predicate Precedes(log: seq<Position>, tie: Tie, a: nat, b: nat)
    requires a < |log| && b < |log|
  {
    log[a].ts > log[b].ts || (log[a].ts == log[b].ts && tie(a, b))
  }

  /** Row number `i` placed in a listing that is newest first. */
  function Insert(log: seq<Position>, tie: Tie, listing: seq<nat>, i: nat): seq<nat>
    requires i < |log| && forall k :: 0 <= k < |listing| ==> listing[k] < |log|
  {
    if listing == [] || Precedes(log, tie, i, listing[0]) then [i] + listing
    else [listing[0]] + Insert(log, tie, listing[1..], i)
  }

  /** The rows of the log that the query selects, newest first, as row numbers. */
  function Listing(log: seq<Position>, tie: Tie, q: Query): (r: seq<nat>)
    ensures forall k :: 0 <= k < |r| ==> r[k] < |log|
  {
    if log == [] then []
    else
      var n := |log| - 1;
      var before := Listing(log[..n], tie, q);
      if Matches(q, log[n]) then InsertLast(log, tie, before) else before
  }

  function InsertLast(log: seq<Position>, tie: Tie, before: seq<nat>): (r: seq<nat>)
    requires log != [] && forall k :: 0 <= k < |before| ==> before[k] < |log| - 1
    ensures forall k :: 0 <= k < |r| ==> r[k] < |log|
  {
    InsertBounds(log, tie, before, |log| - 1);
    Insert(log, tie, before, |log| - 1)
  }

  lemma {:induction false} InsertBounds(log: seq<Position>, tie: Tie, listing: seq<nat>, i: nat)
    requires i < |log| && forall k :: 0 <= k < |listing| ==> listing[k] < |log|
    ensures forall k :: 0 <= k < |Insert(log, tie, listing, i)| ==> Insert(log, tie, listing, i)[k] < |log|
    ensures forall x :: x in Insert(log, tie, listing, i) <==> x == i || x in listing
    ensures |Insert(log, tie, listing, i)| == |listing| + 1
  {
    if !(listing == [] || Precedes(log, tie, i, listing[0])) {
      InsertBounds(log, tie, listing[1..], i);
      assert listing == [listing[0]] + listing[1..];
    }
  }

  ghost predicate Distinct(s: seq<nat>) {
    forall j, k :: 0 <= j < k < |s| ==> s[j] != s[k]
  }

  ghost predicate NewestFirst(log: seq<Position>, listing: seq<nat>)
    requires forall k :: 0 <= k < |listing| ==> listing[k] < |log|
  {
    forall j, k :: 0 <= j < k < |listing| ==> log[listing[j]].ts >= log[listing[k]].ts
  }

  lemma {:induction false} InsertKeepsDistinct(log: seq<Position>, tie: Tie, listing: seq<nat>, i: nat)
    requires i < |log| && (forall k :: 0 <= k < |listing| ==> listing[k] < |log|) && i !in listing && Distinct(listing)
    ensures Distinct(Insert(log, tie, listing, i))
  {
    if !(listing == [] || Precedes(log, tie, i, listing[0])) {
      var rest := Insert(log, tie, listing[1..], i);
      InsertKeepsDistinct(log, tie, listing[1..], i);
      InsertBounds(log, tie, listing[1..], i);
      assert listing[0] !in rest;
    }
  }

  lemma {:induction false} InsertKeepsOrder(log: seq<Position>, tie: Tie, listing: seq<nat>, i: nat)
    requires i < |log| && (forall k :: 0 <= k < |listing| ==> listing[k] < |log|) && NewestFirst(log, listing)
    ensures forall k :: 0 <= k < |Insert(log, tie, listing, i)| ==> Insert(log, tie, listing, i)[k] < |log|
    ensures NewestFirst(log, Insert(log, tie, listing, i))
  {
    InsertBounds(log, tie, listing, i);
    if !(listing == [] || Precedes(log, tie, i, listing[0])) {
      var rest := Insert(log, tie, listing[1..], i);
      InsertKeepsOrder(log, tie, listing[1..], i);
      InsertBounds(log, tie, listing[1..], i);
      forall x | x in rest ensures log[listing[0]].ts >= log[x].ts {
        if x != i {
          var j :| 0 <= j < |listing[1..]| && listing[1..][j] == x;
          assert listing[j + 1] == x;
        }
      }
    }
  }

  /** Row `n` is added to a listing of the rows before it. */
  lemma InsertLastIsCorrect(log: seq<Position>, tie: Tie, before: seq<nat>, n: nat)
    requires |log| == n + 1 && (forall k :: 0 <= k < |before| ==> before[k] < n) && Distinct(before) && NewestFirst(log, before)
    ensures forall i :: i in InsertLast(log, tie, before) <==> i == n || i in before
    ensures Distinct(InsertLast(log, tie, before)) && NewestFirst(log, InsertLast(log, tie, before))
  {
    InsertBounds(log, tie, before, n);
    InsertKeepsDistinct(log, tie, before, n);
    InsertKeepsOrder(log, tie, before, n);
  }

  lemma NewestFirstLater(log: seq<Position>, p: Position, listing: seq<nat>)
    requires (forall k :: 0 <= k < |listing| ==> listing[k] < |log|) && NewestFirst(log, listing)
    ensures NewestFirst(log + [p], listing)
  {
  }

  /** A listing holds exactly the selected rows, each once, newest first. */
  lemma {:induction false} ListingIsCorrect(log: seq<Position>, tie: Tie, q: Query)
    ensures forall i :: i in Listing(log, tie, q) <==> 0 <= i < |log| && log[i].tag == q.tag && Within(log[i], q.from, q.to)
    ensures Distinct(Listing(log, tie, q)) && NewestFirst(log, Listing(log, tie, q))
  {
    if log != [] {
      var n := |log| - 1;
      var before := Listing(log[..n], tie, q);
      ListingIsCorrect(log[..n], tie, q);
      NewestFirstLater(log[..n], log[n], before);
      assert log == log[..n] + [log[n]];
      if Matches(q, log[n]) {
        InsertLastIsCorrect(log, tie, before, n);
      }
    }
  }

  // The order of a listing, ties included.

  /** A rule that settles every tie, one way. */
  ghost predicate SettlesTies(tie: Tie) {
    && (forall a, b :: a != b ==> (tie(a, b) <==> !tie(b, a)))
    && (forall a, b, c :: tie(a, b) && tie(b, c) ==> a == c || tie(a, c))
  }

  /** Every row precedes all rows behind it. */
  ghost predicate InOrder(log: seq<Position>, tie: Tie, rows: seq<nat>) {
    && (forall k :: 0 <= k < |rows| ==> rows[k] < |log|)
    && (forall j, k :: 0 <= j < k < |rows| ==> Precedes(log, tie, rows[j], rows[k]))
  }

  lemma PrecedesTrans(log: seq<Position>, tie: Tie, a: nat, b: nat, c: nat)
    requires SettlesTies(tie) && a < |log| && b < |log| && c < |log| && a != c
    requires Precedes(log, tie, a, b) && Precedes(log, tie, b, c)
    ensures Precedes(log, tie, a, c)
  {
  }

  lemma PrecedesOneWay(log: seq<Position>, tie: Tie, a: nat, b: nat)
    requires SettlesTies(tie) && a < |log| && b < |log| && a != b
    ensures Precedes(log, tie, a, b) <==> !Precedes(log, tie, b, a)
  {
  }

  lemma FirstInOrder(log: seq<Position>, tie: Tie, first: nat, rows: seq<nat>)
    requires first < |log| && InOrder(log, tie, rows) && forall x :: x in rows ==> Precedes(log, tie, first, x)
    ensures InOrder(log, tie, [first] + rows)
  {
    forall k | 0 <= k < |rows| ensures Precedes(log, tie, first, rows[k]) {
      assert rows[k] in rows;
    }
  }

  lemma {:induction false} InsertKeepsInOrder(log: seq<Position>, tie: Tie, rows: seq<nat>, i: nat)
    requires SettlesTies(tie) && i < |log| && i !in rows && InOrder(log, tie, rows)
    ensures InOrder(log, tie, Insert(log, tie, rows, i))
  {
    if rows == [] {
    } else if Precedes(log, tie, i, rows[0]) {
      forall x | x in rows ensures Precedes(log, tie, i, x) {
        var k :| 0 <= k < |rows| && rows[k] == x;
        if k > 0 { PrecedesTrans(log, tie, i, rows[0], x); }
      }
      FirstInOrder(log, tie, i, rows);
    } else {
      InsertKeepsInOrder(log, tie, rows[1..], i);
      InsertBounds(log, tie, rows[1..], i);
      PrecedesOneWay(log, tie, i, rows[0]);
      FirstInOrder(log, tie, rows[0], Insert(log, tie, rows[1..], i));
    }
  }

  lemma InOrderLater(log: seq<Position>, p: Position, tie: Tie, rows: seq<nat>)
    requires InOrder(log, tie, rows)
    ensures InOrder(log + [p], tie, rows)
  {
  }

  lemma {:induction false} ListingInOrder(log: seq<Position>, tie: Tie, q: Query)
    requires SettlesTies(tie)
    ensures InOrder(log, tie, Listing(log, tie, q))
  {
    if log != [] {
      var n := |log| - 1;
      var before := Listing(log[..n], tie, q);
      ListingInOrder(log[..n], tie, q);
      InOrderLater(log[..n], log[n], tie, before);
      assert log == log[..n] + [log[n]];
      if Matches(q, log[n]) {
        assert n !in before;
        InsertKeepsInOrder(log, tie, before, n);
      }
    }
  }

  lemma SameEmptiness(a: seq<nat>, b: seq<nat>)
    requires forall x :: x in a <==> x in b
    ensures a == [] <==> b == []
  {
    if a != [] { assert a[0] in b; }
    if b != [] { assert b[0] in a; }
  }

  lemma SameFirst(log: seq<Position>, tie: Tie, a: seq<nat>, b: seq<nat>)
    requires SettlesTies(tie) && InOrder(log, tie, a) && InOrder(log, tie, b) && a != [] && b != []
    requires forall x :: x in a <==> x in b
    ensures a[0] == b[0]
  {
    assert a[0] in b && b[0] in a;
    if a[0] != b[0] {
      var j :| 0 <= j < |b| && b[j] == a[0];
      var k :| 0 <= k < |a| && a[k] == b[0];
      PrecedesOneWay(log, tie, a[0], b[0]);
    }
  }

  /** The order leaves no choice. */
  lemma {:induction false} InOrderIsUnique(log: seq<Position>, tie: Tie, a: seq<nat>, b: seq<nat>)
    requires SettlesTies(tie) && InOrder(log, tie, a) && InOrder(log, tie, b) && Distinct(a) && Distinct(b)
    requires forall x :: x in a <==> x in b
    ensures a == b
  {
    if a == [] {
      SameEmptiness(a, b);
    } else {
      SameEmptiness(a, b);
      SameFirst(log, tie, a, b);
      assert a == [a[0]] + a[1..] && b == [b[0]] + b[1..];
      forall x ensures x in a[1..] <==> x in b[1..] {
        assert x in a[1..] ==> x in a && x != a[0];
        assert x in b[1..] ==> x in b && x != b[0];
      }
      InOrderIsUnique(log, tie, a[1..], b[1..]);
    }
  }

  /** If a rule settles the ties, a sequence of rows is the listing exactly when it holds the
      selected rows, each once, newest first and equal timestamps by the rule. */
  lemma ListingIff(log: seq<Position>, tie: Tie, q: Query, rows: seq<nat>)
    requires SettlesTies(tie)
    ensures rows == Listing(log, tie, q)
            <==> InOrder(log, tie, rows) && Distinct(rows)
                 && (forall i :: i in rows <==> 0 <= i < |log| && log[i].tag == q.tag && Within(log[i], q.from, q.to))
  {
    ListingIsCorrect(log, tie, q);
    ListingInOrder(log, tie, q);
    if InOrder(log, tie, rows) && Distinct(rows) && (forall i :: i in rows <==> 0 <= i < |log| && log[i].tag == q.tag && Within(log[i], q.from, q.to)) {
      InOrderIsUnique(log, tie, rows, Listing(log, tie, q));
    }
  }

  function Select(log: seq<Position>, rows: seq<nat>): seq<Position>
    requires forall k :: 0 <= k < |rows| ==> rows[k] < |log|
  {
    seq(|rows|, k requires 0 <= k < |rows| => log[rows[k]])
  }

  /** The events of the log that the query selects, in log order. */
  function Selected(log: seq<Position>, q: Query): seq<Position> {
    if log == [] then []
    else Selected(log[..|log| - 1], q) + if Matches(q, log[|log| - 1]) then [log[|log| - 1]] else []
  }

  lemma {:induction false} SelectInsert(log: seq<Position>, tie: Tie, listing: seq<nat>, i: nat)
    requires i < |log| && forall k :: 0 <= k < |listing| ==> listing[k] < |log|
    ensures forall k :: 0 <= k < |Insert(log, tie, listing, i)| ==> Insert(log, tie, listing, i)[k] < |log|
    ensures multiset(Select(log, Insert(log, tie, listing, i))) == multiset(Select(log, listing)) + multiset{log[i]}
  {
    InsertBounds(log, tie, listing, i);
    if listing == [] || Precedes(log, tie, i, listing[0]) {
      assert Select(log, [i] + listing) == [log[i]] + Select(log, listing);
    } else {
      var rest := Insert(log, tie, listing[1..], i);
      SelectInsert(log, tie, listing[1..], i);
      assert Select(log, [listing[0]] + rest) == [log[listing[0]]] + Select(log, rest);
      assert Select(log, listing) == [log[listing[0]]] + Select(log, listing[1..]);
    }
  }

  /** A listing is a rearrangement of the selected events: none lost, none repeated. */
  lemma {:induction false} ListingIsPermutation(log: seq<Position>, tie: Tie, q: Query)
    ensures multiset(Select(log, Listing(log, tie, q))) == multiset(Selected(log, q))
  {
    if log != [] {
      var n := |log| - 1;
      var before := Listing(log[..n], tie, q);
      ListingIsPermutation(log[..n], tie, q);
      assert Select(log, before) == Select(log[..n], before);
      if Matches(q, log[n]) {
        SelectInsert(log, tie, before, n);
      }
    }
  }

  lemma {:induction false} InsertEmbeds(log: seq<Position>, tie: Tie, listing: seq<nat>, i: nat)
    requires i < |log| && forall k :: 0 <= k < |listing| ==> listing[k] < |log|
    ensures Subsequence<nat>(listing, Insert(log, tie, listing, i))
  {
    if listing == [] || Precedes(log, tie, i, listing[0]) {
      SubsequenceRefl<nat>(listing);
      SubsequencePrepended<nat>(listing, listing, i);
    } else {
      InsertEmbeds(log, tie, listing[1..], i);
      SubsequenceSameHead<nat>(listing[1..], Insert(log, tie, listing[1..], i), listing[0]);
      assert listing == [listing[0]] + listing[1..];
    }
  }

  lemma ListingGrowsOne(log: seq<Position>, p: Position, tie: Tie, q: Query)
    ensures Subsequence<nat>(Listing(log, tie, q), Listing(log + [p], tie, q))
  {
    var grown := log + [p];
    assert grown[..|grown| - 1] == log;
    if Matches(q, p) {
      InsertEmbeds(grown, tie, Listing(log, tie, q), |log|);
    } else {
      SubsequenceRefl<nat>(Listing(log, tie, q));
    }
  }

  /** However many events are logged in the meantime, and wherever they land in the order, the
      old listing stays an in-order part of the new one. */
  lemma {:induction false} ListingGrows(log: seq<Position>, more: seq<Position>, tie: Tie, q: Query)
    ensures Subsequence<nat>(Listing(log, tie, q), Listing(log + more, tie, q))
  {
    if more == [] {
      assert log + more == log;
      SubsequenceRefl<nat>(Listing(log, tie, q));
    } else {
      var n := |more| - 1;
      ListingGrows(log, more[..n], tie, q);
      ListingGrowsOne(log + more[..n], more[n], tie, q);
      assert log + more == (log + more[..n]) + [more[n]];
      SubsequenceTrans<nat>(Listing(log, tie, q), Listing(log + more[..n], tie, q), Listing(log + more, tie, q));
    }
  }

  // The history endpoint.

  datatype Response = Response(items: seq<Position>, total: nat)

  function Clip(n: nat, bound: nat): nat {
    if n < bound then n else bound
  }

  /** LIMIT and OFFSET over a listing. */
  function Page(listing: seq<nat>, limit: nat, offset: nat): seq<nat> {
    listing[Clip(offset, |listing|)..Clip(offset + limit, |listing|)]
  }

  /** SELECT COUNT(*) with the same filters. */
  function CountMatching(log: seq<Position>, q: Query): nat {
    if log == [] then 0
    else CountMatching(log[..|log| - 1], q) + if Matches(q, log[|log| - 1]) then 1 else 0
  }

  /** The rows are read first and the count second, so the log may grow in between. */
  function PositionHistory(logAtRows: seq<Position>, logAtCount: seq<Position>, tie: Tie, q: Query,
                           limit: nat, offset: nat): Response
  {
    Response(Select(logAtRows, Page(Listing(logAtRows, tie, q), limit, offset)), CountMatching(logAtCount, q))
  }

  lemma {:induction false} CountIsListingLength(log: seq<Position>, tie: Tie, q: Query)
    ensures CountMatching(log, q) == |Listing(log, tie, q)|
  {
    if log != [] {
      var n := |log| - 1;
      CountIsListingLength(log[..n], tie, q);
      if Matches(q, log[n]) {
        InsertBounds(log, tie, Listing(log[..n], tie, q), n);
      }
    }
  }

  /** A page holds what stands at its offset, as many rows as asked for unless the listing ends. */
  lemma PageHolds(log: seq<Position>, tie: Tie, q: Query, limit: nat, offset: nat)
    ensures var items, listing := PositionHistory(log, log, tie, q, limit, offset).items, Listing(log, tie, q);
            && |items| == (if offset + limit <= |listing| then limit else if offset <= |listing| then |listing| - offset else 0)
            && forall k :: 0 <= k < |items| ==> items[k] == log[listing[offset + k]]
  {
  }

  // The download.

  /** What happens around one request: the events logged before its rows are read, those logged
      before its rows are counted, and whether the request is answered. */
  datatype Visit = Visit(beforeRows: seq<Position>, beforeCount: seq<Position>, answer: Answer)

  /** A request is answered, or refused by the server, or gives no readable answer at all. */
  datatype Answer = Answered | Refused | Lost

  const QUIET := Visit([], [], Answered)

  datatype Download = NothingSelected | Loaded(points: seq<Position>) | HttpError(tag: Tag) | FetchError

  /** Every row before position `offset` of the listing that was logged among the first `start`
      has been collected. */
  ghost predicate CaughtUpTo(listing: seq<nat>, offset: nat, start: nat, ids: seq<nat>) {
    offset <= |listing| && forall k :: 0 <= k < offset && listing[k] < start ==> listing[k] in ids
  }

  /** A row of the old listing stands no earlier in the grown one. */
  lemma NoEarlier(old': seq<nat>, new': seq<nat>, k: nat) returns (j: nat)
    requires Subsequence<nat>(old', new') && Distinct(new') && k < |new'| && new'[k] in old'
    ensures j <= k && j < |old'| && old'[j] == new'[k]
  {
    var ix: seq<nat> :| Embeds<nat>(ix, old', new');
    j :| 0 <= j < |old'| && old'[j] == new'[k];
    EmbeddingIsSteep(ix, j);
    assert new'[ix[j]] == new'[k] && ix[j] == k;
  }

  lemma GrownListingCaughtUp(old': seq<nat>, new': seq<nat>, offset: nat, start: nat, ids: seq<nat>)
    requires Subsequence<nat>(old', new') && Distinct(new') && CaughtUpTo(old', offset, start, ids)
    requires forall x :: x in new' && x < start ==> x in old'
    ensures CaughtUpTo(new', offset, start, ids)
  {
    SubsequenceLength<nat>(old', new');
    forall k | 0 <= k < offset && new'[k] < start ensures new'[k] in ids {
      assert new'[k] in new' && new'[k] in old';
      var j := NoEarlier(old', new', k);
      assert old'[j] in ids;
    }
  }

  /** Growth of the log pushes rows to later offsets only, so nothing collected is undone. */
  lemma GrowthKeepsCaughtUp(log: seq<Position>, more: seq<Position>, tie: Tie, q: Query, offset: nat, start: nat, ids: seq<nat>)
    requires CaughtUpTo(Listing(log, tie, q), offset, start, ids) && start <= |log|
    ensures CaughtUpTo(Listing(log + more, tie, q), offset, start, ids)
  {
    ListingGrows(log, more, tie, q);
    ListingIsCorrect(log, tie, q);
    ListingIsCorrect(log + more, tie, q);
    GrownListingCaughtUp(Listing(log, tie, q), Listing(log + more, tie, q), offset, start, ids);
  }

  lemma PageCatchesUp(listing: seq<nat>, offset: nat, start: nat, ids: seq<nat>)
    requires CaughtUpTo(listing, offset, start, ids)
    ensures offset + |Page(listing, PAGE_SIZE, offset)| <= |listing|
    ensures CaughtUpTo(listing, offset + |Page(listing, PAGE_SIZE, offset)|, start, ids + Page(listing, PAGE_SIZE, offset))
    ensures |Page(listing, PAGE_SIZE, offset)| < PAGE_SIZE ==> offset + |Page(listing, PAGE_SIZE, offset)| == |listing|
    ensures ids == listing[..offset] ==>
              ids + Page(listing, PAGE_SIZE, offset) == listing[..offset + |Page(listing, PAGE_SIZE, offset)|]
  {
    var page := Page(listing, PAGE_SIZE, offset);
    forall k | 0 <= k < offset + |page| && listing[k] < start ensures listing[k] in ids + page {
      if k >= offset {
        assert page[k - offset] == listing[k];
      }
    }
  }

  /** `ids` are rows of the log that the query selects, and `points` are their contents. */
  ghost predicate Collected(log: seq<Position>, q: Query, ids: seq<nat>, points: seq<Position>) {
    && |points| == |ids|
    && forall k :: 0 <= k < |ids| ==> ids[k] < |log| && log[ids[k]].tag == q.tag && Within(log[ids[k]], q.from, q.to) && points[k] == log[ids[k]]
  }

  ghost predicate HasAll(log: seq<Position>, start: nat, q: Query, ids: seq<nat>)
    requires start <= |log|
  {
    forall i :: 0 <= i < start && log[i].tag == q.tag && Within(log[i], q.from, q.to) ==> i in ids
  }

  ghost predicate Still(schedule: seq<Visit>) {
    forall k :: 0 <= k < |schedule| ==> schedule[k].beforeRows == [] && schedule[k].beforeCount == []
  }

  lemma CaughtUpHasAll(log: seq<Position>, tie: Tie, q: Query, offset: nat, start: nat, ids: seq<nat>)
    requires CaughtUpTo(Listing(log, tie, q), offset, start, ids) && offset == |Listing(log, tie, q)| && start <= |log|
    ensures HasAll(log, start, q, ids)
  {
    ListingIsCorrect(log, tie, q);
  }

  lemma CollectedMore(log: seq<Position>, log': seq<Position>, q: Query, ids: seq<nat>, points: seq<Position>,
                      page: seq<nat>, items: seq<Position>)
    requires log <= log' && Collected(log, q, ids, points) && Collected(log', q, page, items)
    ensures Collected(log', q, ids + page, points + items)
  {
  }

  /** A download of `q` under way: `ids` and `points` are what it has collected, `offset` how many
      rows that is, and nothing logged among the first `start` events is missed before there. */
  ghost predicate Underway(log: seq<Position>, tie: Tie, q: Query, start: nat, offset: nat, ids: seq<nat>, points: seq<Position>) {
    && start <= |log| && offset == |ids|
    && Collected(log, q, ids, points)
    && CaughtUpTo(Listing(log, tie, q), offset, start, ids)
  }

  lemma PageWithin(listing: seq<nat>, limit: nat, offset: nat, n: nat)
    requires forall k :: 0 <= k < |listing| ==> listing[k] < n
    ensures forall k :: 0 <= k < |Page(listing, limit, offset)| ==> Page(listing, limit, offset)[k] < n
  {
  }

  lemma UnderwayAdvances(log: seq<Position>, tie: Tie, q: Query, visit: Visit, start: nat, offset: nat,
                         ids: seq<nat>, points: seq<Position>, page: seq<nat>)
    requires Underway(log, tie, q, start, offset, ids, points)
    requires page == Page(Listing(log + visit.beforeRows, tie, q), PAGE_SIZE, offset)
    ensures Underway(log + visit.beforeRows + visit.beforeCount, tie, q, start, offset + |page|, ids + page,
                     points + Select(log + visit.beforeRows, page))
    ensures |page| < PAGE_SIZE ==> HasAll(log + visit.beforeRows + visit.beforeCount, start, q, ids + page)
  {
    var atRows := log + visit.beforeRows;
    PageWithin(Listing(atRows, tie, q), PAGE_SIZE, offset, |atRows|);
    GrowthKeepsCaughtUp(log, visit.beforeRows, tie, q, offset, start, ids);
    PageCatchesUp(Listing(atRows, tie, q), offset, start, ids);
    GrowthKeepsCaughtUp(atRows, visit.beforeCount, tie, q, offset + |page|, start, ids + page);
    PageCollected(atRows, atRows + visit.beforeCount, tie, q, offset);
    CollectedMore(log, atRows + visit.beforeCount, q, ids, points, page, Select(atRows, page));
    if |page| < PAGE_SIZE {
      CaughtUpHasAll(atRows, tie, q, offset + |page|, start, ids + page);
      HasAllLater(atRows, atRows + visit.beforeCount, start, q, ids + page);
    }
  }

  /** One request. It advances the download by the rows it returns, and a short page is the end. */
  method Fetch(log: seq<Position>, tie: Tie, q: Query, visit: Visit, offset: nat,
               ghost start: nat, ghost ids: seq<nat>, ghost points: seq<Position>)
    returns (response: Response, log': seq<Position>, ghost page: seq<nat>)
    requires Underway(log, tie, q, start, offset, ids, points)
    ensures log <= log' && |page| == |response.items|
    ensures Underway(log', tie, q, start, offset + |page|, ids + page, points + response.items)
    ensures response.total == |Listing(log', tie, q)|
    ensures |page| <= 1000 && (|page| < 1000 ==> HasAll(log', start, q, ids + page))
    ensures visit.beforeRows == [] && visit.beforeCount == [] ==>
              log' == log && page == Page(Listing(log, tie, q), PAGE_SIZE, offset)
  {
    var atRows := log + visit.beforeRows;
    log' := atRows + visit.beforeCount;
    response := PositionHistory(atRows, log', tie, q, PAGE_SIZE, offset);
    page := Page(Listing(atRows, tie, q), PAGE_SIZE, offset);
    UnderwayAdvances(log, tie, q, visit, start, offset, ids, points, page);
    CountIsListingLength(log', tie, q);
    if visit.beforeRows == [] && visit.beforeCount == [] {
      assert atRows == log && log' == log;
    }
  }

  lemma PageCollected(log: seq<Position>, log': seq<Position>, tie: Tie, q: Query, offset: nat)
    requires log <= log'
    ensures Collected(log', q, Page(Listing(log, tie, q), PAGE_SIZE, offset),
                      Select(log, Page(Listing(log, tie, q), PAGE_SIZE, offset)))
  {
    ListingIsCorrect(log, tie, q);
    var page := Page(Listing(log, tie, q), PAGE_SIZE, offset);
    forall k | 0 <= k < |page| ensures page[k] < |log| && Matches(q, log[page[k]]) {
      assert page[k] in Listing(log, tie, q);
    }
  }

  lemma HasAllLater(log: seq<Position>, log': seq<Position>, start: nat, q: Query, ids: seq<nat>)
    requires start <= |log| && log <= log' && HasAll(log, start, q, ids)
    ensures HasAll(log', start, q, ids)
  {
    assert forall i :: 0 <= i < start ==> log[i] == log'[i];
  }

  lemma StillPages(listing: seq<nat>, offset: nat, ids: seq<nat>)
    requires offset <= |listing| && ids == listing[..offset]
    ensures ids + Page(listing, PAGE_SIZE, offset) == listing[..offset + |Page(listing, PAGE_SIZE, offset)|]
    ensures |Page(listing, PAGE_SIZE, offset)| < PAGE_SIZE ==> ids + Page(listing, PAGE_SIZE, offset) == listing
  {
  }

  /** What the schedule holds for the `k`-th request; nothing happens once it is used up. */
  function VisitAt(schedule: seq<Visit>, k: nat): Visit {
    if k < |schedule| then schedule[k] else QUIET
  }

  /** The schedule after `n` requests. */
  function After(schedule: seq<Visit>, n: nat): seq<Visit> {
    if n < |schedule| then schedule[n..] else []
  }

  /** The first `n` requests are answered. */
  predicate AllServed(schedule: seq<Visit>, n: nat) {
    n == 0 || (AllServed(schedule, n - 1) && VisitAt(schedule, n - 1).answer.Answered?)
  }

  /** `n` requests were made, of which all were answered but perhaps the last, which met `answer`. */
  predicate Served(schedule: seq<Visit>, n: nat, answer: Answer) {
    if n == 0 then answer.Answered? else AllServed(schedule, n - 1) && VisitAt(schedule, n - 1).answer == answer
  }

  lemma NextVisit(schedule: seq<Visit>, n: nat, rest: seq<Visit>)
    requires rest == After(schedule, n)
    ensures (if rest == [] then QUIET else rest[0]) == VisitAt(schedule, n)
    ensures (if rest == [] then [] else rest[1..]) == After(schedule, n + 1)
  {
  }

  lemma VisitLater(schedule: seq<Visit>, n: nat, k: nat)
    ensures VisitAt(After(schedule, n), k) == VisitAt(schedule, n + k)
    ensures After(After(schedule, n), k) == After(schedule, n + k)
  {
  }

  lemma {:induction false} AllServedMore(schedule: seq<Visit>, n: nat, m: nat)
    requires AllServed(schedule, n) && AllServed(After(schedule, n), m)
    ensures AllServed(schedule, n + m)
  {
    if m > 0 {
      AllServedMore(schedule, n, m - 1);
      VisitLater(schedule, n, m - 1);
    }
  }

  lemma ServedMore(schedule: seq<Visit>, n: nat, m: nat, answer: Answer)
    requires AllServed(schedule, n) && m > 0 && Served(After(schedule, n), m, answer)
    ensures Served(schedule, n + m, answer) && (answer.Answered? ==> AllServed(schedule, n + m))
    ensures After(After(schedule, n), m) == After(schedule, n + m)
  {
    AllServedMore(schedule, n, m - 1);
    VisitLater(schedule, n, m - 1);
    VisitLater(schedule, n, m);
  }

  lemma AllOkServed(schedule: seq<Visit>, n: nat, answer: Answer)
    requires Served(schedule, n, answer)
    ensures AllOk(schedule) ==> answer.Answered?
  {
  }

  lemma KindAfter(schedule: seq<Visit>, n: nat)
    ensures Still(schedule) ==> Still(After(schedule, n))
    ensures AllOk(schedule) ==> VisitAt(schedule, n).answer.Answered? && AllOk(After(schedule, n))
    ensures Still(schedule) ==> VisitAt(schedule, n).beforeRows == [] && VisitAt(schedule, n).beforeCount == []
  {
  }

  /** Downloading one tag. Every event present at the start is collected, however the log grows
      meanwhile; in a still log each selected event is collected exactly once, newest first. The
      loop ends: each request uses up part of the schedule or advances in a listing that no
      longer grows. */
  method DownloadTag(log: seq<Position>, tie: Tie, q: Query, schedule: seq<Visit>)
    returns (answer: Answer, points: seq<Position>, log': seq<Position>, rest: seq<Visit>, ghost ids: seq<nat>, ghost requests: nat)
    ensures log <= log' && Collected(log', q, ids, points)
    ensures requests > 0 && Served(schedule, requests, answer) && rest == After(schedule, requests)
    ensures answer.Answered? ==> HasAll(log', |log|, q, ids)
    ensures Still(schedule) ==> log' == log
    ensures Still(schedule) && answer.Answered? ==> ids == Listing(log, tie, q)
    ensures AllOk(schedule) ==> answer.Answered?
  {
    points, log', rest, ids, answer, requests := [], log, schedule, [], Answered, 0;
    var offset: nat := 0;
    var total: Option<nat> := None;
    while total.None? || offset < total.value
      invariant log <= log' && Underway(log', tie, q, |log|, offset, ids, points)
      invariant total.Some? ==> total.value == |Listing(log', tie, q)| && requests > 0
      invariant Still(schedule) ==> log' == log && ids == Listing(log, tie, q)[..offset]
      invariant answer.Answered? && AllServed(schedule, requests) && rest == After(schedule, requests)
      decreases |rest|, |Listing(log', tie, q)| - offset
    {
      var visit := if rest == [] then QUIET else rest[0];
      NextVisit(schedule, requests, rest);
      KindAfter(schedule, requests);
      rest := if rest == [] then [] else rest[1..];
      requests := requests + 1;
      answer := visit.answer;
      if !answer.Answered? { return; }
      var response, grown, page := Fetch(log', tie, q, visit, offset, |log|, ids, points);
      StillPages(Listing(log', tie, q), offset, Listing(log', tie, q)[..offset]);
      log', ids, points := grown, ids + page, points + response.items;
      total := Some(response.total);
      offset := offset + |response.items|;
      if |response.items| < PAGE_SIZE { return; }
    }
    CaughtUpHasAll(log', tie, q, offset, |log|, ids);
  }

  ghost predicate AllOk(schedule: seq<Visit>) {
    forall k :: 0 <= k < |schedule| ==> schedule[k].answer.Answered?
  }

  // Several tags.

  /** Every event the queries for `tags` select among the first `start` of the log is in `points`,
      and every point is a selected event of the log. */
  ghost predicate Covers(log: seq<Position>, start: nat, tags: seq<Tag>, from: Option<int>, to: Option<int>, points: seq<Position>)
    requires start <= |log|
  {
    && (forall i :: 0 <= i < start && log[i].tag in tags && Within(log[i], from, to) ==> log[i] in points)
    && (forall p :: p in points ==> p in log && p.tag in tags && Within(p, from, to))
  }

  /** The listings of the tags one after the other. */
  function Listings(log: seq<Position>, tie: Tie, tags: seq<Tag>, from: Option<int>, to: Option<int>): seq<Position> {
    if tags == [] then []
    else
      var n := |tags| - 1;
      Listings(log, tie, tags[..n], from, to) + Select(log, Listing(log, tie, Query(tags[n], from, to)))
  }

  lemma CoversOneMore(log: seq<Position>, log': seq<Position>, start: nat, tags: seq<Tag>, tag: Tag, from: Option<int>, to: Option<int>,
                      points: seq<Position>, ids: seq<nat>, more: seq<Position>)
    requires start <= |log| && log <= log' && Covers(log, start, tags, from, to, points)
    requires Collected(log', Query(tag, from, to), ids, more) && HasAll(log', |log|, Query(tag, from, to), ids)
    ensures Covers(log', start, tags + [tag], from, to, points + more)
  {
    forall i | 0 <= i < start && log'[i].tag in tags + [tag] && Within(log'[i], from, to)
      ensures log'[i] in points + more
    {
      assert log'[i] == log[i];
      if log[i].tag !in tags {
        assert i in ids;
        var k :| 0 <= k < |ids| && ids[k] == i;
        assert more[k] == log'[i];
      }
    }
    forall p | p in points + more ensures p in log' && p.tag in tags + [tag] && Within(p, from, to) {
      if p in points {
        assert p in log;
      } else {
        var k :| 0 <= k < |more| && more[k] == p;
        assert log'[ids[k]] == p;
      }
    }
  }

  /** `points` are what loading `tags` may give: every event present at the start, selected events
      only, and in a still log exactly the listings. */
  ghost predicate Loading(log: seq<Position>, log': seq<Position>, tie: Tie, tags: seq<Tag>, from: Option<int>, to: Option<int>,
                          still: bool, points: seq<Position>)
  {
    && log <= log' && Covers(log', |log|, tags, from, to, points)
    && (still ==> log' == log && points == Listings(log, tie, tags, from, to))
  }

  lemma NothingLoaded(log: seq<Position>, tie: Tie, from: Option<int>, to: Option<int>, still: bool)
    ensures Loading(log, log, tie, [], from, to, still, [])
  {
  }

  lemma LoadedOneMore(log: seq<Position>, log': seq<Position>, grown: seq<Position>, tie: Tie, tags: seq<Tag>, tag: Tag,
                      from: Option<int>, to: Option<int>, still: bool, points: seq<Position>, ids: seq<nat>, more: seq<Position>)
    requires Loading(log, log', tie, tags, from, to, still, points)
    requires log' <= grown && Collected(grown, Query(tag, from, to), ids, more) && HasAll(grown, |log'|, Query(tag, from, to), ids)
    requires still ==> grown == log' && ids == Listing(log', tie, Query(tag, from, to))
    ensures Loading(log, grown, tie, tags + [tag], from, to, still, points + more)
  {
    CoversOneMore(log', grown, |log|, tags, tag, from, to, points, ids, more);
    if still {
      assert (tags + [tag])[..|tags|] == tags;
      assert more == Select(log, ids);
    }
  }

  type Count = n: nat | n > 0 witness 1

  function Sum(counts: seq<Count>): nat {
    if counts == [] then 0 else Sum(counts[..|counts| - 1]) + counts[|counts| - 1]
  }

  lemma SumOneMore(counts: seq<Count>, n: Count)
    ensures Sum(counts + [n]) == Sum(counts) + n
  {
    assert (counts + [n])[..|counts|] == counts;
  }

  /** As many requests as `counts` say, at least one for each tag begun, all answered but perhaps the
      last, which met `answer`. */
  ghost predicate Tallied(schedule: seq<Visit>, counts: seq<Count>, answer: Answer) {
    Served(schedule, Sum(counts), answer)
  }

  lemma NothingTallied(schedule: seq<Visit>)
    ensures Tallied(schedule, [], Answered) && After(schedule, Sum([])) == schedule
  {
  }

  lemma TallyOneMore(schedule: seq<Visit>, counts: seq<Count>, requests: Count, answer: Answer)
    requires Tallied(schedule, counts, Answered) && Served(After(schedule, Sum(counts)), requests, answer)
    ensures Tallied(schedule, counts + [requests], answer)
    ensures After(After(schedule, Sum(counts)), requests) == After(schedule, Sum(counts + [requests]))
    ensures AllOk(schedule) ==> answer.Answered?
  {
    SumOneMore(counts, requests);
    ServedMore(schedule, Sum(counts), requests, answer);
    AllOkServed(schedule, Sum(counts) + requests, answer);
  }

  /** The first `t` tags are loaded: the answer so far, what it took and what it gave. */
  ghost predicate LoadedUpTo(log: seq<Position>, log': seq<Position>, tie: Tie, tags: seq<Tag>, t: nat, from: Option<int>, to: Option<int>,
                             schedule: seq<Visit>, counts: seq<Count>, rest: seq<Visit>, points: seq<Position>)
  {
    && t == |counts| <= |tags|
    && Loading(log, log', tie, tags[..t], from, to, Still(schedule), points)
    && Tallied(schedule, counts, Answered) && rest == After(schedule, Sum(counts))
  }

  lemma LoadedAll(log: seq<Position>, log': seq<Position>, tie: Tie, tags: seq<Tag>, from: Option<int>, to: Option<int>,
                  schedule: seq<Visit>, counts: seq<Count>, rest: seq<Visit>, points: seq<Position>)
    requires LoadedUpTo(log, log', tie, tags, |tags|, from, to, schedule, counts, rest, points)
    ensures Loading(log, log', tie, tags, from, to, Still(schedule), points)
  {
    assert tags[..|tags|] == tags;
  }

  lemma LoadedNone(log: seq<Position>, tie: Tie, tags: seq<Tag>, from: Option<int>, to: Option<int>, schedule: seq<Visit>)
    ensures LoadedUpTo(log, log, tie, tags, 0, from, to, schedule, [], schedule, [])
  {
    NothingTallied(schedule);
    NothingLoaded(log, tie, from, to, Still(schedule));
    assert tags[..0] == [];
  }

  /** Downloading tag number `t`. */
  method LoadTag(ghost log: seq<Position>, log': seq<Position>, tie: Tie, tags: seq<Tag>, t: nat, from: Option<int>, to: Option<int>,
                 ghost schedule: seq<Visit>, ghost counts: seq<Count>, left: seq<Visit>, points: seq<Position>)
    returns (answer: Answer, more: seq<Position>, grown: seq<Position>, rest: seq<Visit>, ghost counts': seq<Count>)
    requires t < |tags| && LoadedUpTo(log, log', tie, tags, t, from, to, schedule, counts, left, points)
    ensures log <= grown && (Still(schedule) ==> grown == log) && (AllOk(schedule) ==> answer.Answered?)
    ensures |counts'| == t + 1 && Tallied(schedule, counts', answer)
    ensures answer.Answered? ==> LoadedUpTo(log, grown, tie, tags, t + 1, from, to, schedule, counts', rest, points + more)
  {
    KindAfter(schedule, Sum(counts));
    ghost var ids, requests;
    answer, more, grown, rest, ids, requests := DownloadTag(log', tie, Query(tags[t], from, to), left);
    counts' := counts + [requests];
    TallyOneMore(schedule, counts, requests, answer);
    if answer.Answered? {
      LoadedOneMore(log, log', grown, tie, tags[..t], tags[t], from, to, Still(schedule), points, ids, more);
      assert tags[..t + 1] == tags[..t] + [tags[t]];
    }
  }

  /** Downloading the tags one after the other, up to the first request that is not answered. */
  method LoadTags(log: seq<Position>, tie: Tie, tags: seq<Tag>, from: Option<int>, to: Option<int>, schedule: seq<Visit>)
    returns (answer: Answer, points: seq<Position>, log': seq<Position>, last: Tag, ghost counts: seq<Count>)
    requires tags != []
    ensures log <= log' && (Still(schedule) ==> log' == log) && (AllOk(schedule) ==> answer.Answered?)
    ensures answer.Answered? ==> Loading(log, log', tie, tags, from, to, Still(schedule), points)
    ensures Tallied(schedule, counts, answer)
    ensures 0 < |counts| <= |tags| && last == tags[|counts| - 1] && (answer.Answered? ==> |counts| == |tags|)
  {
    answer, points, log', counts, last := Answered, [], log, [], tags[0];
    var rest := schedule;
    LoadedNone(log, tie, tags, from, to, schedule);
    for t := 0 to |tags|
      invariant answer.Answered? && (t > 0 ==> last == tags[t - 1])
      invariant LoadedUpTo(log, log', tie, tags, t, from, to, schedule, counts, rest, points)
    {
      last := tags[t];
      var more;
      answer, more, log', rest, counts := LoadTag(log, log', tie, tags, t, from, to, schedule, counts, rest, points);
      if !answer.Answered? { return; }
      points := points + more;
    }
    LoadedAll(log, log', tie, tags, from, to, schedule, counts, rest, points);
  }

  /** Nothing to do without a tag; else loading all selected tags, or stopping at the first unanswered
      request with nothing loaded. Every event present at the start is loaded; in a still log the
      result is exactly the listings. `counts` are the numbers of requests made for the tags that
      were begun: the first request that is not answered is the last made, and if the server
      refused it the error names its tag. */
  method HandleLoad(log: seq<Position>, tie: Tie, tags: seq<Tag>, from: Option<int>, to: Option<int>, schedule: seq<Visit>)
    returns (result: Download, log': seq<Position>, ghost counts: seq<Count>)
    ensures log <= log' && (Still(schedule) ==> log' == log)
    ensures result.Loaded? ==> Loading(log, log', tie, tags, from, to, Still(schedule), result.points)
    ensures AllOk(schedule) && tags != [] ==> result.Loaded?
    ensures result.NothingSelected? <==> tags == []
    ensures Tallied(schedule, counts, if result.HttpError? then Refused else if result.FetchError? then Lost else Answered)
    ensures if result.HttpError? || result.FetchError? then 0 < |counts| <= |tags| else |counts| == |tags|
    ensures result.HttpError? ==> result.tag == tags[|counts| - 1]
  {
    if |tags| == 0 {
      NothingTallied(schedule);
      return NothingSelected, log, [];
    }
    var answer, points, last;
    answer, points, log', last, counts := LoadTags(log, tie, tags, from, to, schedule);
    match answer
    case Answered => result := Loaded(points);
    case Refused => result := HttpError(last);
    case Lost => result := FetchError;
  }
}
