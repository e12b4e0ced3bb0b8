/** Playing back a downloaded history: a clock driven by animation frames at variable speed, and
    the map of positions at the clock's time. Time is a real number of milliseconds. */
module Player {
  import opened Positions
  import opened Snapshots
  import opened Playback

  type Speed = s: int | s == 1 || s == 2 || s == 4 || s == 8 witness 1

  /** `pending` are the animation callbacks the browser still owes, `raf` the latest of them. */
  datatype Player = Player(points: seq<Position>, playing: bool, speed: Speed, lastFrame: Option<real>,
                           time: Option<real>, shown: Table, raf: Option<nat>, pending: set<nat>, nextHandle: nat)

  const EMPTY := Player([], false, 1, None, None, map[], None, {}, 0)

  function Begin(pl: Player): real
    requires pl.points != []
  {
    pl.points[0].ts as real
  }

  function EndOf(points: seq<Position>): real
    requires points != []
  {
    points[|points| - 1].ts as real
  }

  function End(pl: Player): real
    requires pl.points != []
  {
    EndOf(pl.points)
  }

  function MinReal(a: real, b: real): real {
    if a <= b then a else b
  }

  function Clamp(p: real): real {
    if p <= 0.0 then 0.0 else if p >= 1.0 then 1.0 else p
  }

  /** Simulated time: the elapsed time multiplied by the speed, one linear case per speed. */
  function Advance(delta: real, s: Speed): real {
    if s == 1 then delta else if s == 2 then 2.0 * delta else if s == 4 then 4.0 * delta else 8.0 * delta
  }

  lemma AdvanceIsProduct(delta: real, s: Speed)
    ensures Advance(delta, s) == delta * s as real
  {
  }

  /** The point at fraction `c` of a range that starts at `begin`. */
  function Along(begin: real, range: real, c: real): real {
    begin + range * c
  }

  function RequestFrame(pl: Player): Player {
    pl.(raf := Some(pl.nextHandle), pending := pl.pending + {pl.nextHandle}, nextHandle := pl.nextHandle + 1)
  }

  function Load(pl: Player, ps: seq<Position>): Player {
    var sorted := Sorted(ps);
    pl.(points := sorted, time := if sorted == [] then None else Some(sorted[0].ts as real), shown := map[],
        playing := false, lastFrame := None)
  }

  function Play(pl: Player): Player {
    if pl.points == [] then pl
    else
      var rewound := if pl.time.Some? && pl.time.value >= End(pl) then pl.(time := Some(Begin(pl)), shown := map[]) else pl;
      RequestFrame(rewound.(playing := true, lastFrame := None))
  }

  function Pause(pl: Player): Player {
    pl.(playing := false, lastFrame := None, raf := None,
        pending := if pl.raf.Some? then pl.pending - {pl.raf.value} else pl.pending)
  }

  function SetSpeed(pl: Player, s: Speed): Player {
    pl.(speed := s)
  }

  function Seek(pl: Player, p: real): Player {
    if pl.points == [] then pl
    else
      var t := Along(Begin(pl), End(pl) - Begin(pl), Clamp(p));
      pl.(time := Some(t), shown := PositionsAt(pl.points, t))
  }

  function Reset(pl: Player): Player {
    Pause(pl).(points := [], time := None, shown := map[])
  }

  /** Where the clock goes by a timestamp: not beyond the end. */
  function NextTime(pl: Player, timestamp: real): real
    requires pl.points != [] && pl.lastFrame.Some?
  {
    var previous := if pl.time.Some? then pl.time.value else Begin(pl);
    MinReal(previous + Advance(timestamp - pl.lastFrame.value, pl.speed), End(pl))
  }

  /** The clock and the map moved on to a timestamp, stopped if that reaches the end. */
  function Advanced(pl: Player, timestamp: real): Player
    requires pl.points != [] && pl.lastFrame.Some?
  {
    MovedTo(pl, NextTime(pl, timestamp))
  }

  /** The clock and the map at `next`, stopped if that is the end. */
  function MovedTo(pl: Player, next: real): Player
    requires pl.points != []
  {
    var moved := pl.(time := Some(next), shown := PositionsAt(pl.points, next));
    if next >= End(pl) then moved.(playing := false, lastFrame := None) else moved
  }

  /** What the frame callback does, at the frame's timestamp. */
  function RunFrame(pl: Player, timestamp: real): Player {
    if !pl.playing || pl.points == [] then pl
    else
      var moved := if pl.lastFrame.Some? then Advanced(pl, timestamp) else pl;
      if !moved.playing then moved else RequestFrame(moved.(lastFrame := Some(timestamp)))
  }

  /** The browser runs callback `h`, which it then no longer owes. */
  function Tick(pl: Player, h: nat, timestamp: real): Player {
    RunFrame(pl.(pending := pl.pending - {h}), timestamp)
  }

  /** The fraction of a range at which a moment lies. */
  function Fraction(begin: real, range: real, t: real): real
    requires range != 0.0
  {
    (t - begin) / range
  }

  function Progress(pl: Player): real {
    if pl.points == [] || pl.time.None? || End(pl) <= Begin(pl) then 0.0
    else Clamp(Fraction(Begin(pl), End(pl) - Begin(pl), pl.time.value))
  }

  // Any sequence of operations.

  datatype Op =
    | DoLoad(ps: seq<Position>)
    | DoPlay
    | DoPause
    | DoSetSpeed(s: Speed)
    | DoSeek(p: real)
    | DoReset
    | DoFrame(h: nat, timestamp: real)

  /** The browser only runs callbacks it owes, and its frame clock does not go back. */
  predicate Legal(pl: Player, op: Op) {
    op.DoFrame? ==> op.h in pl.pending && (pl.lastFrame.Some? ==> op.timestamp >= pl.lastFrame.value)
  }

  function Apply(pl: Player, op: Op): Player {
    match op
    case DoLoad(ps) => Load(pl, ps)
    case DoPlay => Play(pl)
    case DoPause => Pause(pl)
    case DoSetSpeed(s) => SetSpeed(pl, s)
    case DoSeek(p) => Seek(pl, p)
    case DoReset => Reset(pl)
    case DoFrame(h, timestamp) => Tick(pl, h, timestamp)
  }

  ghost predicate LegalRun(pl: Player, ops: seq<Op>)
    decreases |ops|
  {
    ops != [] ==> Legal(pl, ops[0]) && LegalRun(Apply(pl, ops[0]), ops[1..])
  }

  function Run(pl: Player, ops: seq<Op>): Player
    decreases |ops|
  {
    if ops == [] then pl else Run(Apply(pl, ops[0]), ops[1..])
  }

  /** The time exists exactly when points are loaded, and lies within their range. */
  ghost predicate TimeInv(pl: Player) {
    && Ascending(pl.points)
    && (pl.time.None? <==> pl.points == [])
    && (pl.time.Some? ==> Begin(pl) <= pl.time.value <= End(pl))
    && (pl.playing ==> pl.points != [])
  }

  /** The map is empty or that of the current time. */
  ghost predicate MapInv(pl: Player) {
    pl.shown == map[] || (pl.time.Some? && pl.shown == PositionsAt(pl.points, pl.time.value))
  }

  /** While it plays, the browser owes the latest requested frame, so playback cannot stall. */
  ghost predicate FrameInv(pl: Player) {
    && (pl.playing ==> pl.raf.Some? && pl.raf.value in pl.pending)
    && (forall h :: h in pl.pending ==> h < pl.nextHandle)
  }

  ghost predicate Inv(pl: Player) {
    TimeInv(pl) && MapInv(pl) && FrameInv(pl)
  }

  lemma FractionOfRange(d: real, c: real)
    requires d >= 0.0 && 0.0 <= c <= 1.0
    ensures 0.0 <= d * c <= d
  {
    assert d * (1.0 - c) >= 0.0;
    assert d * (1.0 - c) == d - d * c;
  }

  lemma AlongStaysInRange(begin: real, range: real, c: real)
    requires range >= 0.0 && 0.0 <= c <= 1.0
    ensures begin <= Along(begin, range, c) <= begin + range
  {
    FractionOfRange(range, c);
  }

  lemma LoadKeepsInv(pl: Player, ps: seq<Position>)
    requires Inv(pl)
    ensures Inv(Load(pl, ps))
  {
    SortedAscends(ps);
    SortedIsPermutation(ps);
  }

  lemma SeekKeepsInv(pl: Player, p: real)
    requires Inv(pl)
    ensures Inv(Seek(pl, p))
  {
    if pl.points != [] {
      AlongStaysInRange(Begin(pl), End(pl) - Begin(pl), Clamp(p));
    }
  }

  lemma NextStaysInRange(begin: real, end: real, previous: real, delta: real, s: Speed)
    requires begin <= previous <= end && delta >= 0.0
    ensures begin <= MinReal(previous + Advance(delta, s), end) <= end
  {
  }

  lemma TickKeepsTime(pl: Player, h: nat, timestamp: real)
    requires TimeInv(pl) && Legal(pl, DoFrame(h, timestamp))
    ensures TimeInv(Tick(pl, h, timestamp))
  {
    if pl.playing && pl.lastFrame.Some? {
      NextStaysInRange(Begin(pl), End(pl), pl.time.value, timestamp - pl.lastFrame.value, pl.speed);
    }
  }

  lemma MovingShowsTime(pl: Player, next: real)
    requires pl.points != []
    ensures MapInv(MovedTo(pl, next)) && MovedTo(pl, next).points == pl.points
    ensures MovedTo(pl, next).time.Some? && MovedTo(pl, next).shown == PositionsAt(pl.points, MovedTo(pl, next).time.value)
  {
  }

  lemma AdvancingShowsTime(pl: Player, timestamp: real)
    requires pl.points != [] && pl.lastFrame.Some?
    ensures MapInv(Advanced(pl, timestamp)) && Advanced(pl, timestamp).points == pl.points
    ensures Advanced(pl, timestamp).time.Some?
    ensures Advanced(pl, timestamp).shown == PositionsAt(pl.points, Advanced(pl, timestamp).time.value)
  {
    MovingShowsTime(pl, NextTime(pl, timestamp));
  }

  lemma RunFrameKeepsMap(pl: Player, timestamp: real)
    requires MapInv(pl)
    ensures MapInv(RunFrame(pl, timestamp))
  {
    if pl.playing && pl.points != [] && pl.lastFrame.Some? {
      AdvancingShowsTime(pl, timestamp);
    }
  }

  lemma TickKeepsMap(pl: Player, h: nat, timestamp: real)
    requires MapInv(pl)
    ensures MapInv(Tick(pl, h, timestamp))
  {
    RunFrameKeepsMap(pl.(pending := pl.pending - {h}), timestamp);
  }

  lemma TickKeepsFrame(pl: Player, h: nat, timestamp: real)
    requires TimeInv(pl) && FrameInv(pl)
    ensures FrameInv(Tick(pl, h, timestamp))
  {
  }

  lemma TickKeepsInv(pl: Player, h: nat, timestamp: real)
    requires Inv(pl) && Legal(pl, DoFrame(h, timestamp))
    ensures Inv(Tick(pl, h, timestamp))
  {
    TickKeepsTime(pl, h, timestamp);
    TickKeepsMap(pl, h, timestamp);
    TickKeepsFrame(pl, h, timestamp);
  }

  lemma PlayKeepsInv(pl: Player)
    requires Inv(pl)
    ensures Inv(Play(pl))
  {
  }

  lemma StopsKeepInv(pl: Player, s: Speed)
    requires Inv(pl)
    ensures Inv(Pause(pl)) && Inv(Reset(pl)) && Inv(SetSpeed(pl, s))
  {
  }

  lemma ApplyKeepsInv(pl: Player, op: Op)
    requires Inv(pl) && Legal(pl, op)
    ensures Inv(Apply(pl, op))
  {
    match op
    case DoLoad(ps) => LoadKeepsInv(pl, ps);
    case DoPlay => PlayKeepsInv(pl);
    case DoSeek(p) => SeekKeepsInv(pl, p);
    case DoFrame(h, timestamp) => TickKeepsInv(pl, h, timestamp);
    case DoSetSpeed(s) => StopsKeepInv(pl, s);
    case _ => StopsKeepInv(pl, pl.speed);
  }

  /** The invariant holds after any operations, in any order, from the start. */
  lemma {:induction false} RunKeepsInv(pl: Player, ops: seq<Op>)
    requires Inv(pl) && LegalRun(pl, ops)
    ensures Inv(Run(pl, ops))
    decreases |ops|
  {
    if ops != [] {
      ApplyKeepsInv(pl, ops[0]);
      RunKeepsInv(Apply(pl, ops[0]), ops[1..]);
    }
  }

  lemma PlayerInvariant(ops: seq<Op>)
    requires LegalRun(EMPTY, ops)
    ensures Inv(Run(EMPTY, ops))
  {
    RunKeepsInv(EMPTY, ops);
  }

  lemma FractionOfAlong(begin: real, range: real, c: real, t: real)
    requires range > 0.0 && t == Along(begin, range, c)
    ensures Fraction(begin, range, t) == c
  {
    assert t - begin == range * c;
  }

  lemma FactorTimesQuotient(x: real, d: real)
    requires 0.0 <= x <= d && d > 0.0
    ensures 0.0 <= x / d <= 1.0 && d * (x / d) == x
  {
  }

  /** Seeking to a fraction of a range that is not a single moment makes the progress that
      fraction, clamped to [0, 1]. */
  lemma SeekSetsProgress(pl: Player, p: real)
    requires Inv(pl) && pl.points != [] && End(pl) > Begin(pl)
    ensures Progress(Seek(pl, p)) == if p < 0.0 then 0.0 else if p > 1.0 then 1.0 else p
  {
    FractionOfAlong(Begin(pl), End(pl) - Begin(pl), Clamp(p), Seek(pl, p).time.value);
  }

  lemma NoProgressWithoutRange(pl: Player)
    requires pl.points == [] || pl.time.None? || pl.points[0].ts == pl.points[|pl.points| - 1].ts
    ensures Progress(pl) == 0.0
  {
  }

  lemma FractionAt(begin: real, range: real, t: real) returns (p: real)
    requires range > 0.0 && begin <= t <= begin + range
    ensures 0.0 <= p <= 1.0 && Along(begin, range, p) == t
  {
    p := (t - begin) / range;
    FactorTimesQuotient(t - begin, range);
  }

  /** Every moment of the range can be sought. */
  lemma SeekReaches(pl: Player, t: real) returns (p: real)
    requires Inv(pl) && pl.points != [] && Begin(pl) <= t <= End(pl) && Begin(pl) < End(pl)
    ensures 0.0 <= p <= 1.0
    ensures Seek(pl, p).time == Some(t) && Seek(pl, p).shown == PositionsAt(pl.points, t)
  {
    p := FractionAt(Begin(pl), End(pl) - Begin(pl), t);
    assert Clamp(p) == p;
  }

  // The clock.

  /** A frame, run by any owed callback, after the speed was set. */
  datatype Frame = Frame(speed: Speed, h: nat, timestamp: real)

  ghost predicate ClockGoesOn(frames: seq<Frame>) {
    forall i, j :: 0 <= i < j < |frames| ==> frames[i].timestamp <= frames[j].timestamp
  }

  function OneFrame(pl: Player, f: Frame): Player {
    Tick(SetSpeed(pl, f.speed), f.h, f.timestamp)
  }

  ghost predicate RunsAt(states: seq<Player>, frames: seq<Frame>, i: nat)
    requires |states| == |frames| + 1 && i < |frames|
  {
    states[i + 1] == OneFrame(states[i], frames[i])
  }

  /** `states` are those the player goes through when `frames` come, and nothing else. */
  ghost predicate RunsThrough(pl: Player, frames: seq<Frame>, states: seq<Player>) {
    && |states| == |frames| + 1 && states[0] == pl
    && forall i: nat :: i < |frames| ==> RunsAt(states, frames, i)
  }

  /** The sum of speed times elapsed time over the frames after the first. */
  function Simulated(frames: seq<Frame>): real {
    if |frames| <= 1 then 0.0
    else
      var n := |frames| - 1;
      Simulated(frames[..n]) + Advance(frames[n].timestamp - frames[n - 1].timestamp, frames[n].speed)
  }

  /** A clock that ran for simulated time up to `t`, by `n` frames of which the latest came at `last`:
      it shows the smaller of `t` and the end, and it has stopped exactly when a second frame has
      come and `t` has reached the end. */
  ghost predicate ClockIs(r: Player, points: seq<Position>, t: real, n: nat, last: real) {
    && points != [] && r.points == points
    && r.time == Some(MinReal(t, EndOf(points)))
    && (r.playing <==> n < 2 || t < EndOf(points))
    && (r.playing ==> r.lastFrame == if n == 0 then None else Some(last))
  }

  /** From the second frame on the map is that of the clock's time; before that it is as it was. */
  ghost predicate ShowsTime(r: Player, n: nat, first: Table) {
    if n >= 2 then r.time.Some? && r.shown == PositionsAt(r.points, r.time.value) else r.shown == first
  }

  lemma ClockTicks(r: Player, points: seq<Position>, t: real, n: nat, last: real, f: Frame)
    requires ClockIs(r, points, t, n, last) && (n > 0 ==> last <= f.timestamp) && (n < 2 ==> t <= EndOf(points))
    ensures ClockIs(OneFrame(r, f), points,
                    if n == 0 then t else t + Advance(f.timestamp - last, f.speed), n + 1, f.timestamp)
  {
  }

  lemma RunFrameShowsTime(r: Player, n: nat, timestamp: real, first: Table)
    requires r.points != [] && ShowsTime(r, n, first) && (n < 2 ==> r.playing) && (r.playing ==> (r.lastFrame.Some? <==> n > 0))
    ensures ShowsTime(RunFrame(r, timestamp), n + 1, first)
  {
    if r.playing && r.lastFrame.Some? {
      AdvancingShowsTime(r, timestamp);
    }
  }

  lemma TickShowsTime(r: Player, points: seq<Position>, t: real, n: nat, last: real, f: Frame, first: Table)
    requires ClockIs(r, points, t, n, last) && ShowsTime(r, n, first)
    ensures ShowsTime(OneFrame(r, f), n + 1, first)
  {
    RunFrameShowsTime(r.(speed := f.speed, pending := r.pending - {f.h}), n, f.timestamp, first);
  }

  function LastTime(frames: seq<Frame>): real {
    if frames == [] then 0.0 else frames[|frames| - 1].timestamp
  }

  lemma OneFrameLater(before: seq<Frame>, f: Frame)
    ensures LastTime(before + [f]) == f.timestamp
    ensures Simulated(before + [f])
            == if before == [] then Simulated(before) else Simulated(before) + Advance(f.timestamp - LastTime(before), f.speed)
  {
    assert (before + [f])[..|before|] == before;
  }

  /** `r` is the player after pressing play, with nothing but frames and speed changes since. */
  ghost predicate ClockAt(r: Player, points: seq<Position>, t0: real, first: Table, frames: seq<Frame>) {
    ClockIs(r, points, t0 + Simulated(frames), |frames|, LastTime(frames)) && ShowsTime(r, |frames|, first)
  }

  lemma ClockStep(r: Player, points: seq<Position>, t0: real, first: Table, before: seq<Frame>, f: Frame)
    requires ClockAt(r, points, t0, first, before) && points != [] && t0 <= EndOf(points)
    requires before != [] ==> LastTime(before) <= f.timestamp
    ensures ClockAt(OneFrame(r, f), points, t0, first, before + [f])
  {
    OneFrameLater(before, f);
    var t := t0 + Simulated(before);
    ClockTicks(r, points, t, |before|, LastTime(before), f);
    TickShowsTime(r, points, t, |before|, LastTime(before), f, first);
  }

  /** Play was just pressed. */
  ghost predicate JustStarted(pl: Player) {
    pl.points != [] && pl.playing && pl.lastFrame.None? && pl.time.Some? && pl.time.value <= End(pl)
  }

  lemma RunsThroughPrefix(pl: Player, frames: seq<Frame>, states: seq<Player>)
    requires RunsThrough(pl, frames, states) && frames != []
    ensures RunsThrough(pl, frames[..|frames| - 1], states[..|frames|])
    ensures states[|frames|] == OneFrame(states[|frames| - 1], frames[|frames| - 1])
  {
    var n := |frames| - 1;
    var path, before := states[..n + 1], frames[..n];
    forall i: nat | i < |before| ensures RunsAt(path, before, i) {
      assert RunsAt(states, frames, i);
    }
    assert RunsAt(states, frames, n);
  }

  lemma {:induction false} ClockRuns(pl: Player, frames: seq<Frame>, states: seq<Player>)
    requires JustStarted(pl) && ClockGoesOn(frames) && RunsThrough(pl, frames, states)
    ensures ClockAt(states[|frames|], pl.points, pl.time.value, pl.shown, frames)
    decreases |frames|
  {
    if frames != [] {
      var n := |frames| - 1;
      RunsThroughPrefix(pl, frames, states);
      ClockRuns(pl, frames[..n], states[..n + 1]);
      ClockStep(states[n], pl.points, pl.time.value, pl.shown, frames[..n], frames[n]);
      assert frames == frames[..n] + [frames[n]];
    }
  }

  ghost predicate Loaded(pl: Player) {
    pl.points != [] && Ascending(pl.points) && pl.time.Some?
  }

  /** Pressing play on a loaded player starts where it is, or from the beginning if that is the end. */
  lemma PlayStartsClock(pl: Player)
    requires Loaded(pl)
    ensures JustStarted(Play(pl)) && Play(pl).points == pl.points && End(Play(pl)) == End(pl)
    ensures if pl.time.value >= End(pl) then Play(pl).time == Some(Begin(pl)) && Play(pl).shown == map[]
            else Play(pl).time == pl.time && Play(pl).shown == pl.shown
  {
  }

  /** What a clock shows that ran for simulated time up to `t`, by `n` frames. */
  lemma ClockReads(r: Player, pl: Player, t: real, n: nat, last: real)
    requires ClockIs(r, pl.points, t, n, last) && ShowsTime(r, n, pl.shown)
    ensures pl.points != [] && r.time == Some(MinReal(t, End(pl))) && (r.playing <==> n < 2 || t < End(pl))
    ensures r.shown == if n >= 2 then PositionsAt(pl.points, r.time.value) else pl.shown
  {
  }

  /** The closed form, from `play` on any loaded player. */
  lemma {:induction false} ClockClosedForm(pl: Player, frames: seq<Frame>, states: seq<Player>)
    requires Loaded(pl) && ClockGoesOn(frames) && RunsThrough(Play(pl), frames, states)
    ensures if pl.time.value >= End(pl) then Play(pl).time == Some(Begin(pl)) && Play(pl).shown == map[]
            else Play(pl).time == pl.time && Play(pl).shown == pl.shown
    ensures var r, t := states[|frames|], Play(pl).time.value + Simulated(frames);
            && r.time == Some(MinReal(t, End(pl)))
            && (r.playing <==> |frames| < 2 || t < End(pl))
            && r.shown == if |frames| >= 2 then PositionsAt(pl.points, r.time.value) else Play(pl).shown
  {
    PlayStartsClock(pl);
    ClockRuns(Play(pl), frames, states);
    ClockReads(states[|frames|], Play(pl), Play(pl).time.value + Simulated(frames), |frames|, LastTime(frames));
  }

  // Across a pause.

  /** Same points, same time, same map. */
  ghost predicate SamePicture(a: Player, b: Player) {
    a.points == b.points && a.time == b.time && a.shown == b.shown
  }

  lemma IdleFrame(pl: Player, f: Frame)
    requires !pl.playing
    ensures SamePicture(OneFrame(pl, f), pl) && !OneFrame(pl, f).playing
  {
  }

  /** A player that does not play does not move, whatever callbacks are still to come. */
  lemma {:induction false} IdleStays(pl: Player, frames: seq<Frame>, states: seq<Player>)
    requires !pl.playing && RunsThrough(pl, frames, states)
    ensures SamePicture(states[|frames|], pl) && !states[|frames|].playing
    decreases |frames|
  {
    if frames != [] {
      var n := |frames| - 1;
      RunsThroughPrefix(pl, frames, states);
      IdleStays(pl, frames[..n], states[..n + 1]);
      IdleFrame(states[n], frames[n]);
    }
  }

  lemma PauseKeepsPicture(pl: Player)
    ensures SamePicture(Pause(pl), pl) && !Pause(pl).playing && Pause(pl).speed == pl.speed && Pause(pl).lastFrame.None?
  {
  }

  lemma PointsStay(pl: Player, frames: seq<Frame>, states: seq<Player>)
    requires Loaded(pl) && ClockGoesOn(frames) && RunsThrough(Play(pl), frames, states)
    ensures states[|frames|].points == pl.points
  {
    PlayStartsClock(pl);
    ClockRuns(Play(pl), frames, states);
  }

  lemma PlayGoesOn(pl: Player, time: real, end: real)
    requires Loaded(pl) && pl.time == Some(time) && time < end && end == End(pl)
    ensures Play(pl).time == Some(time)
  {
  }

  /** A pause costs nothing: the picture stands still, stray callbacks included, and if playback had
      not reached the end the next play goes on from there, so that the simulated times add up. */
  lemma {:induction false} PauseAndResume(pl: Player, frames: seq<Frame>, states: seq<Player>, stray: seq<Frame>, idle: seq<Player>,
                       more: seq<Frame>, after: seq<Player>)
    requires Loaded(pl) && ClockGoesOn(frames) && RunsThrough(Play(pl), frames, states)
    requires Play(pl).time.value + Simulated(frames) < End(pl)
    requires RunsThrough(Pause(states[|frames|]), stray, idle)
    requires ClockGoesOn(more) && RunsThrough(Play(idle[|stray|]), more, after)
    ensures SamePicture(idle[|stray|], states[|frames|]) && !idle[|stray|].playing
    ensures after[|more|].time == Some(MinReal(Play(pl).time.value + Simulated(frames) + Simulated(more), End(pl)))
  {
    var t := Play(pl).time.value + Simulated(frames);
    ClockClosedForm(pl, frames, states);
    PointsStay(pl, frames, states);
    PauseKeepsPicture(states[|frames|]);
    IdleStays(Pause(states[|frames|]), stray, idle);
    PlayGoesOn(idle[|stray|], t, End(pl));
    ClockClosedForm(idle[|stray|], more, after);
  }

  function Times(n: nat, d: real): real {
    if n == 0 then 0.0 else Times(n - 1, d) + d
  }

  lemma {:induction false} TimesIsProduct(n: nat, d: real)
    ensures Times(n, d) == n as real * d
  {
    if n > 0 {
      TimesIsProduct(n - 1, d);
      assert n as real * d == (n - 1) as real * d + d;
    }
  }

  ghost predicate Spaced(frames: seq<Frame>, d: real) {
    forall i :: 0 < i < |frames| ==> frames[i].timestamp - frames[i - 1].timestamp >= d
  }

  lemma {:induction false} SpacedClockGoesOn(frames: seq<Frame>, d: real, i: nat, j: nat)
    requires d > 0.0 && Spaced(frames, d) && i < j < |frames|
    ensures frames[i].timestamp <= frames[j].timestamp
  {
    if i + 1 < j {
      SpacedClockGoesOn(frames, d, i, j - 1);
    }
  }

  lemma {:induction false} SimulatedAtLeast(frames: seq<Frame>, d: real)
    requires d > 0.0 && frames != [] && Spaced(frames, d)
    ensures Simulated(frames) >= Times(|frames| - 1, d)
  {
    if |frames| > 1 {
      SimulatedAtLeast(frames[..|frames| - 1], d);
    }
  }

  lemma StopsOnceCovered(pl: Player, frames: seq<Frame>, states: seq<Player>, d: real)
    requires Loaded(pl) && d > 0.0 && |frames| >= 2 && Spaced(frames, d) && RunsThrough(Play(pl), frames, states)
    requires Times(|frames| - 1, d) >= End(pl) - Play(pl).time.value
    ensures !states[|frames|].playing && states[|frames|].time == Some(End(pl))
  {
    SimulatedAtLeast(frames, d);
    forall i: nat, j: nat | i < j < |frames| ensures frames[i].timestamp <= frames[j].timestamp {
      SpacedClockGoesOn(frames, d, i, j);
    }
    ClockClosedForm(pl, frames, states);
  }

  /** Playback ends: if frames are at least `d` apart, it has stopped exactly at the end once their
      number times `d` covers the remaining time. */
  lemma PlaybackStops(pl: Player, frames: seq<Frame>, states: seq<Player>, d: real)
    requires Loaded(pl) && d > 0.0 && |frames| >= 2 && Spaced(frames, d) && RunsThrough(Play(pl), frames, states)
    requires (|frames| - 1) as real * d >= End(pl) - Play(pl).time.value
    ensures !states[|frames|].playing && states[|frames|].time == Some(End(pl))
  {
    TimesIsProduct(|frames| - 1, d);
    StopsOnceCovered(pl, frames, states, d);
  }

  /** The time of the first of the points. */
  ghost predicate Earliest(points: seq<Position>, t: real) {
    (exists p :: p in points && p.ts as real == t) && forall p :: p in points ==> t <= p.ts as real
  }

  lemma SortedStartsEarliest(points: seq<Position>)
    ensures Sorted(points) == [] <==> points == []
    ensures points != [] ==> Earliest(points, Sorted(points)[0].ts as real)
  {
    var sorted := Sorted(points);
    SortedAscends(points);
    SortedIsPermutation(points);
    assert forall p :: p in multiset(sorted) <==> p in multiset(points);
    if points != [] {
      assert points[0] in multiset(sorted);
      forall p | p in points ensures sorted[0].ts <= p.ts {
        assert p in multiset(sorted);
        var i :| 0 <= i < |sorted| && sorted[i] == p;
      }
      assert sorted[0] in multiset(sorted);
    }
  }

  /** The hook itself. Its refs and its state always agree, so each pair is one field. */
  class HistoryPlayer {
    var sortedPoints: seq<Position>
    var playing: bool
    var speed: Speed
    var lastFrame: Option<real>
    var currentTimeMs: Option<real>
    var currentPositions: Table
    var raf: Option<nat>
    /** What the browser still owes. */
    var pending: set<nat>
    var nextHandle: nat

    ghost function State(): Player
      reads this
    {
      Player(sortedPoints, playing, speed, lastFrame, currentTimeMs, currentPositions, raf, pending, nextHandle)
    }

    constructor ()
      ensures State() == EMPTY
    {
      sortedPoints, playing, speed, lastFrame := [], false, 1, None;
      currentTimeMs, currentPositions, raf, pending, nextHandle := None, map[], None, {}, 0;
    }

    method ComputePositions(at: real) returns (table: Table)
      ensures table == PositionsAt(sortedPoints, at)
    {
      table := map[];
      var i := 0;
      while i < |sortedPoints|
        invariant i <= |sortedPoints| && table == TableOf(sortedPoints[..i])
        invariant forall j :: 0 <= j < i ==> sortedPoints[j].ts as real <= at
      {
        if sortedPoints[i].ts as real > at { break; }
        table := table[sortedPoints[i].tag := sortedPoints[i]];
        assert sortedPoints[..i + 1][..i] == sortedPoints[..i];
        i := i + 1;
      }
      ScanStops(Until(at), sortedPoints, i);
    }

    method RequestAnimationFrame()
      modifies this`raf, this`pending, this`nextHandle
      ensures State() == RequestFrame(old(State()))
    {
      raf, pending, nextHandle := Some(nextHandle), pending + {nextHandle}, nextHandle + 1;
    }

    /** Where the clock goes by the time since the last frame, stopping at the end. */
    method ComputeNext(timestamp: real) returns (next: real)
      requires sortedPoints != [] && lastFrame.Some?
      ensures next == NextTime(State(), timestamp)
    {
      var start := sortedPoints[0].ts as real;
      var end := sortedPoints[|sortedPoints| - 1].ts as real;
      var realDelta := timestamp - lastFrame.value;
      var simDelta := realDelta * speed as real;
      AdvanceIsProduct(realDelta, speed);
      var prev := if currentTimeMs.Some? then currentTimeMs.value else start;
      next := if prev + simDelta <= end then prev + simDelta else end;
    }

    method MoveTo(next: real)
      requires sortedPoints != []
      modifies this`currentTimeMs, this`currentPositions, this`playing, this`lastFrame
      ensures State() == MovedTo(old(State()), next)
    {
      currentTimeMs := Some(next);
      currentPositions := ComputePositions(next);
      if next >= sortedPoints[|sortedPoints| - 1].ts as real {
        playing := false;
        lastFrame := None;
      }
    }

    /** Move the clock and the map to the next time, stopping at the end. */
    method AdvanceClock(timestamp: real)
      requires sortedPoints != [] && lastFrame.Some?
      modifies this`currentTimeMs, this`currentPositions, this`playing, this`lastFrame
      ensures State() == Advanced(old(State()), timestamp)
    {
      var next := ComputeNext(timestamp);
      MoveTo(next);
    }

    method FrameCallback(timestamp: real)
      modifies this
      ensures State() == RunFrame(old(State()), timestamp)
    {
      if !playing { return; }
      if |sortedPoints| == 0 { return; }
      if lastFrame.Some? {
        AdvanceClock(timestamp);
        if !playing { return; }
      }
      lastFrame := Some(timestamp);
      RequestAnimationFrame();
    }

    /** The browser runs a callback it owes. */
    method OnFrame(h: nat, timestamp: real)
      requires h in pending
      modifies this
      ensures State() == Tick(old(State()), h, timestamp)
    {
      pending := pending - {h};
      FrameCallback(timestamp);
    }

    method Start()
      modifies this
      ensures State() == Play(old(State()))
      ensures sortedPoints == old(sortedPoints) && speed == old(speed) && (playing <==> old(playing) || sortedPoints != [])
    {
      if |sortedPoints| == 0 { return; }
      var end := sortedPoints[|sortedPoints| - 1].ts as real;
      if currentTimeMs.Some? && currentTimeMs.value >= end {
        currentTimeMs := Some(sortedPoints[0].ts as real);
        currentPositions := map[];
      }
      playing := true;
      lastFrame := None;
      RequestAnimationFrame();
    }

    method Stop()
      modifies this
      ensures State() == Pause(old(State()))
      ensures !playing && lastFrame.None? && sortedPoints == old(sortedPoints) && speed == old(speed)
      ensures currentTimeMs == old(currentTimeMs) && currentPositions == old(currentPositions)
    {
      playing := false;
      lastFrame := None;
      if raf.Some? {
        pending := pending - {raf.value};
        raf := None;
      }
    }

    method ChangeSpeed(s: Speed)
      modifies this`speed
      ensures State() == SetSpeed(old(State()), s) && speed == s
    {
      speed := s;
    }

    /** The moment at a fraction of the range, clamped to it. */
    method SeekTime(p: real) returns (t: real)
      requires sortedPoints != []
      ensures t == Along(Begin(State()), End(State()) - Begin(State()), Clamp(p))
    {
      var start := sortedPoints[0].ts as real;
      var end := sortedPoints[|sortedPoints| - 1].ts as real;
      var atMostOne := if p <= 1.0 then p else 1.0;
      var fraction := if atMostOne >= 0.0 then atMostOne else 0.0;
      assert fraction == Clamp(p);
      t := Along(start, end - start, fraction);
    }

    method SeekTo(p: real)
      modifies this
      ensures State() == Seek(old(State()), p)
      ensures sortedPoints == old(sortedPoints) && playing == old(playing) && speed == old(speed) && lastFrame == old(lastFrame)
      ensures raf == old(raf) && pending == old(pending)
    {
      if |sortedPoints| == 0 { return; }
      var t := SeekTime(p);
      currentTimeMs := Some(t);
      currentPositions := ComputePositions(t);
    }

    method LoadPoints(points: seq<Position>)
      modifies this
      ensures State() == Load(old(State()), points)
      ensures !playing && currentPositions == map[] && speed == old(speed)
      ensures if points == [] then currentTimeMs.None? else currentTimeMs.Some? && Earliest(points, currentTimeMs.value)
    {
      var sorted := Sorted(points);
      SortedStartsEarliest(points);
      sortedPoints := sorted;
      if |sorted| > 0 {
        currentTimeMs := Some(sorted[0].ts as real);
      } else {
        currentTimeMs := None;
      }
      currentPositions := map[];
      playing := false;
      lastFrame := None;
    }

    method ResetAll()
      modifies this
      ensures State() == Reset(old(State()))
      ensures !playing && sortedPoints == [] && currentTimeMs.None? && currentPositions == map[] && speed == old(speed)
    {
      Stop();
      sortedPoints := [];
      currentTimeMs := None;
      currentPositions := map[];
    }
  }
}
