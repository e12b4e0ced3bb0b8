/** From the event log to the player's screen: download, load, seek. */
module Replay {
  import opened Positions
  import opened Sequences
  import opened History
  import opened Playback
  import Player
  import R = Replication

  predicate Wanted(p: Position, tags: seq<Tag>, from: Option<int>, to: Option<int>) {
    p.tag in tags && Within(p, from, to)
  }

  /** The events of the selected tags within the selected period, in log order. */
  function Chosen(log: seq<Position>, tags: seq<Tag>, from: Option<int>, to: Option<int>): seq<Position> {
    Filter((p: Position) => Wanted(p, tags, from, to), log)
  }

  /** What the table of current positions would have been at a moment, had only the chosen events
      been logged. */
  function PastTable(log: seq<Position>, tags: seq<Tag>, from: Option<int>, to: Option<int>, at: real): Table {
    Fold(map[], UpTo(Chosen(log, tags, from, to), at))
  }

  lemma ChosenMembers(log: seq<Position>, tags: seq<Tag>, from: Option<int>, to: Option<int>)
    ensures forall p :: p in Chosen(log, tags, from, to) <==> p in log && Wanted(p, tags, from, to)
  {
    FilterMembers((p: Position) => Wanted(p, tags, from, to), log);
  }

  lemma UpToMembers(ps: seq<Position>, at: real)
    ensures forall p :: p in UpTo(ps, at) <==> p in ps && p.ts as real <= at
  {
    FilterMembers(Until(at), ps);
  }

  /** Under concurrent logging, what is shown lies between the past table of the log at the start
      and that of the log at the end, however often an event was downloaded. */
  lemma ShownBetween(log: seq<Position>, start: nat, tags: seq<Tag>, from: Option<int>, to: Option<int>,
                     points: seq<Position>, at: real)
    requires start <= |log| && Covers(log, start, tags, from, to, points)
    ensures Behind(PastTable(log[..start], tags, from, to, at), PositionsAt(Sorted(points), at))
    ensures Behind(PositionsAt(Sorted(points), at), PastTable(log, tags, from, to, at))
  {
    PlaybackMap(points, at);
    ChosenMembers(log[..start], tags, from, to);
    ChosenMembers(log, tags, from, to);
    UpToMembers(points, at);
    UpToMembers(Chosen(log[..start], tags, from, to), at);
    UpToMembers(Chosen(log, tags, from, to), at);
    forall p | p in UpTo(Chosen(log[..start], tags, from, to), at) ensures p in UpTo(points, at) {
      var i :| 0 <= i < start && log[i] == p;
    }
    MoreIsNewer(UpTo(Chosen(log[..start], tags, from, to), at), UpTo(points, at));
    MoreIsNewer(UpTo(points, at), UpTo(Chosen(log, tags, from, to), at));
  }

  lemma ShownAndPastAgree(log: seq<Position>, tags: seq<Tag>, from: Option<int>, to: Option<int>, points: seq<Position>, at: real)
    requires Covers(log, |log|, tags, from, to, points)
    ensures PositionsAt(Sorted(points), at) == Fold(map[], UpTo(points, at))
    ensures SameElements(UpTo(points, at), UpTo(Chosen(log, tags, from, to), at))
  {
    PlaybackMap(points, at);
    ChosenMembers(log, tags, from, to);
    UpToMembers(points, at);
    UpToMembers(Chosen(log, tags, from, to), at);
    forall p | p in Chosen(log, tags, from, to) ensures p in points {
      var i :| 0 <= i < |log| && log[i] == p;
    }
  }

  /** In a still log a seek shows, for each selected tag, the newest logged event in the period at
      or before the moment; the very record when no two of those tie at a tag's newest time. */
  lemma ShownIsThePast(log: seq<Position>, tags: seq<Tag>, from: Option<int>, to: Option<int>, points: seq<Position>, at: real)
    requires Covers(log, |log|, tags, from, to, points)
    ensures SameTimes(PositionsAt(Sorted(points), at), PastTable(log, tags, from, to, at))
    ensures TopDetermined(UpTo(Chosen(log, tags, from, to), at)) ==>
              PositionsAt(Sorted(points), at) == PastTable(log, tags, from, to, at)
  {
    ShownAndPastAgree(log, tags, from, to, points, at);
    OrderInsensitiveTimes(UpTo(points, at), UpTo(Chosen(log, tags, from, to), at));
    if TopDetermined(UpTo(Chosen(log, tags, from, to), at)) {
      SameElementsSameTable(UpTo(Chosen(log, tags, from, to), at), UpTo(points, at));
    }
  }

  lemma CoversAgain(log: seq<Position>, tags: seq<Tag>, from: Option<int>, to: Option<int>, p: Position)
    requires p in Chosen(log, tags, from, to)
    ensures Covers(log, |log|, tags, from, to, Chosen(log, tags, from, to) + [p])
  {
    ChosenMembers(log, tags, from, to);
  }

  lemma ShownAgain(chosen: seq<Position>, at: real, p: Position)
    requires Newest(UpTo(chosen, at), p)
    ensures var shown := PositionsAt(Sorted(chosen + [p]), at); p.tag in shown && shown[p.tag] == p
  {
    UpToMembers(chosen, at);
    PlaybackMap(chosen + [p], at);
    FilterOne(Until(at), chosen, p);
    LastOfTheTies(UpTo(chosen, at), p);
  }

  /** One more copy of an event, loaded last, is still a loading of the same events. */
  lemma LoadedAgain(log: seq<Position>, tags: seq<Tag>, from: Option<int>, to: Option<int>, at: real, p: Position)
    requires Newest(UpTo(Chosen(log, tags, from, to), at), p)
    ensures Covers(log, |log|, tags, from, to, Chosen(log, tags, from, to) + [p])
    ensures var shown := PositionsAt(Sorted(Chosen(log, tags, from, to) + [p]), at); p.tag in shown && shown[p.tag] == p
  {
    UpToMembers(Chosen(log, tags, from, to), at);
    CoversAgain(log, tags, from, to, p);
    ShownAgain(Chosen(log, tags, from, to), at, p);
  }

  /** The screen shows the very records of the past, in whatever order the events were loaded and
      however often. */
  ghost predicate AlwaysExact(log: seq<Position>, tags: seq<Tag>, from: Option<int>, to: Option<int>, at: real) {
    forall points :: Covers(log, |log|, tags, from, to, points) ==>
                       PositionsAt(Sorted(points), at) == PastTable(log, tags, from, to, at)
  }

  lemma ExactMakesNewest(log: seq<Position>, tags: seq<Tag>, from: Option<int>, to: Option<int>, at: real, p: Position)
    requires AlwaysExact(log, tags, from, to, at) && Newest(UpTo(Chosen(log, tags, from, to), at), p)
    ensures p.tag in PastTable(log, tags, from, to, at) && PastTable(log, tags, from, to, at)[p.tag] == p
  {
    LoadedAgain(log, tags, from, to, at, p);
  }

  /** That holds exactly when no two of the events tie at a tag's newest time. */
  lemma ExactPastIff(log: seq<Position>, tags: seq<Tag>, from: Option<int>, to: Option<int>, at: real)
    ensures AlwaysExact(log, tags, from, to, at) <==> TopDetermined(UpTo(Chosen(log, tags, from, to), at))
  {
    var past := UpTo(Chosen(log, tags, from, to), at);
    if TopDetermined(past) {
      forall points | Covers(log, |log|, tags, from, to, points)
        ensures PositionsAt(Sorted(points), at) == PastTable(log, tags, from, to, at)
      {
        ShownIsThePast(log, tags, from, to, points, at);
      }
    } else if AlwaysExact(log, tags, from, to, at) {
      var p, q :| p in past && q in past && p.tag == q.tag && p.ts == q.ts && Newest(past, p) && p != q;
      assert Newest(past, q);
      ExactMakesNewest(log, tags, from, to, at, p);
      ExactMakesNewest(log, tags, from, to, at, q);
      assert false;
    }
  }

  lemma WholePast(log: seq<Position>, tags: seq<Tag>, at: real)
    requires forall p :: p in log ==> p.tag in tags && p.ts as real <= at
    ensures UpTo(Chosen(log, tags, None, None), at) == log
  {
    forall i | 0 <= i < |log| ensures log[i].tag in tags && log[i].ts as real <= at {
      assert log[i] in log;
    }
    FilterAll((p: Position) => Wanted(p, tags, None, None), log);
    FilterAll(Until(at), log);
  }

  /** Replaying everything up to the last moment ends where the live view is: at the database's table
      of current positions in any reachable state, and so at what a drained, drop-free browser shows. */
  lemma ReplayEndsAtCurrent(maxsize: int, s: R.State, tags: seq<Tag>, points: seq<Position>, at: real)
    requires R.Reachable(maxsize, s) && Covers(s.backend.log, |s.backend.log|, tags, None, None, points)
    requires forall p :: p in s.backend.log ==> p.tag in tags && p.ts as real <= at
    ensures SameTimes(PositionsAt(Sorted(points), at), s.backend.current)
    ensures TopDetermined(s.backend.log) ==> PositionsAt(Sorted(points), at) == s.backend.current
    ensures forall id :: R.Quiet(s, id) && (forall p :: p in s.backend.log ==> p.ts >= 0) ==>
                           SameTimes(PositionsAt(Sorted(points), at), s.clients[id].view)
  {
    R.ReachableInv(maxsize, s);
    ShownIsThePast(s.backend.log, tags, None, None, points, at);
    WholePast(s.backend.log, tags, at);
    forall id | R.Quiet(s, id) && (forall p :: p in s.backend.log ==> p.ts >= 0)
      ensures SameTimes(PositionsAt(Sorted(points), at), s.clients[id].view)
    {
      R.Convergence(maxsize, s, id);
    }
  }

  /** The whole way: what is on screen after a seek agrees with the log at the time shown. Without a
      single point the screen is empty and shows no time; without a download nothing changes. */
  method LoadAndSeek(player: Player.HistoryPlayer, log: seq<Position>, tie: Tie, tags: seq<Tag>, from: Option<int>, to: Option<int>,
                     schedule: seq<Visit>, p: real)
    returns (result: Download, log': seq<Position>)
    modifies player
    ensures !result.Loaded? ==> player.State() == old(player.State())
    ensures result.Loaded? && result.points == [] ==> player.currentTimeMs.None? && player.currentPositions == map[] && !player.playing
    ensures result.Loaded? && result.points != [] ==>
              && player.currentTimeMs.Some?
              && Behind(PastTable(log, tags, from, to, player.currentTimeMs.value), player.currentPositions)
              && Behind(player.currentPositions, PastTable(log', tags, from, to, player.currentTimeMs.value))
              && (Still(schedule) && TopDetermined(UpTo(Chosen(log, tags, from, to), player.currentTimeMs.value)) ==>
                    player.currentPositions == PastTable(log, tags, from, to, player.currentTimeMs.value))
  {
    ghost var counts;
    result, log', counts := HandleLoad(log, tie, tags, from, to, schedule);
    if result.Loaded? {
      player.LoadPoints(result.points);
      player.SeekTo(p);
      if result.points != [] {
        SortedIsPermutation(result.points);
        assert Sorted(result.points) != [];
        ShownBetween(log', |log|, tags, from, to, result.points, player.currentTimeMs.value);
        assert log'[..|log|] == log;
        if Still(schedule) {
          ShownIsThePast(log, tags, from, to, result.points, player.currentTimeMs.value);
        }
      }
    }
  }
}
