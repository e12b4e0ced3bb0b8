# Tag positions: a verified model

Tags report positions in a text protocol. A normalised report travels as a broker message to the
backend, which writes it to an append-only event log and to a table holding one current position
per tag, and then hands it to a bounded in-process queue for every connected browser. A browser
receives a snapshot of the table followed by a filtered stream, and folds both into a map. Another
screen downloads the log page by page and plays it back. The project models these paths and proves
what they promise together.

`dafny verify dfyconfig.toml` checks everything.

## Structure

| file | what it is about |
|---|---|
| `Positions.dfy` | the last-writer-wins rule (`Upsert`, `Fold`), and what it makes of any order and repetition |
| `Sequences.dfy` | in-order subsequences and filters |
| `Broadcasting.dfy` | bounded queues that drop the newest message; classes `ClientQueue`, `Broadcast` |
| `Snapshots.dfy` | snapshot rows, the server's stale filter, and when the filter is invisible |
| `Sessions.dfy` | one browser and the coroutine serving it, as an automaton with its invariant |
| `Backend.dfy` | broker, interleaved message handlers and database, as an automaton with its invariant |
| `Replication.dfy` | the interleaved system, and the main theorems over all its runs |
| `Scenarios.dfy` | particular runs: a handling alone, draining, reconnecting, dropping |
| `Settling.dfy` | from every reachable state to one in which a browser agrees with the database |
| `Ties.dfy` | different records with equal timestamps: when table and screens agree record by record |
| `Accounting.dfy` | drops per connection, lost acknowledgements and retries, counted over whole runs |
| `Repository.dfy`, `Consumer.dfy`, `LiveView.dfy` | the imperative code of database, message handler, socket endpoint and browser hook, proved to do the automata's steps |
| `History.dfy` | paging through a log that grows meanwhile |
| `Playback.dfy`, `Player.dfy` | stable sort and scan; the frame-driven clock and class `HistoryPlayer` |
| `Replay.dfy` | from the log to the player's screen |
| `Text.dfy`, `Numbers.dfy`, `Scanning.dfy`, `Ls1000.dfy`, `Ls1000RoundTrip.dfy` | the LS-1000 text protocol: tokens, numbers, coordinate scan, parser and its round trip |

## How the live view is modelled

A state holds the backend (broker, handlers, log, table, publications, counters) and any number of
browsers, each with at most one connection. A run is any sequence of enabled actions: produce,
deliver, decode, commit, failed or unconfirmed write, publish, acknowledge, requeue, loss of the
channel, restart of the backend, and for a browser open, subscribe, read the snapshot, send it,
dequeue, receive, close. A publication is offered to every subscribed queue in one step, because
the publishing loop does not yield. Everything else interleaves freely. `Reachable` means reachable
by some run from the empty start, so a theorem about reachable states is one about all runs.

## Where the code keeps less than one might expect

- The server's stale filter treats a tag the snapshot does not know as seen at time 0
  (`backend/api/ws.py:33`), although its docstring speaks only of envelopes older than the
  snapshot. A first report at a negative time is hidden (`Snapshots.NegativeTimestampIsHidden`,
  and over a run `Scenarios.NegativeTimeLeavesBehind`), and `Replication.ConvergenceIff` and `Snapshots.FilterInvisibleIff` give the exact conditions.
- A queue that fills up loses messages for good as far as the connection is concerned:
  `Scenarios.DropsCanLeaveBehind` builds, for every bound, a run that leaves a drained browser
  behind the database. A reconnect heals it (`Scenarios.ReconnectHeals`), and the quiet state in
  which both agree is never out of reach (`Settling.CanSettle`, `Settling.CanAgree`).
- Equal timestamps: the table keeps the record committed last, the browser the one published last,
  and two handlers may commit in one order and publish in the other. `Ties.TieKeepsApart` builds
  such a run for any tie at a tag's newest time; `Ties.RecordsConvergeIff` and
  `Ties.ScreensAgreeIff` prove that only such ties can keep records apart, and
  `Ties.RecordsAgreeIff` says it of a single state. Timestamps agree regardless.
- Acknowledgements equal processed + malformed + tag-less messages exactly when no finished handling
  was given up, its channel gone, since the last restart (`Accounting.AcksEqualOutcomesIff`);
  `Accounting.AckCanBeLost` is a run where they differ.

## Model

The main results come first and are marked; then what they rest on, the members that tie the
imperative code to the model, and small operations last.

| member | source | states |
|---|---|---|
| Replication.NeverBackwards | frontend/src/hooks/usePositions.ts:90-112 | **Main result:** from any reachable state on, over any number of disconnects, reconnects, snapshot replacements, drops and restarts, no browser's map loses a tag or shows an older timestamp for one |
| Replication.NeverAhead | backend/repository/sql/upsert_current_position.sql:29-29 | **Main result:** in every reachable state, whatever was dropped and whatever the timestamps, a browser shows committed records only, none newer than the table's |
| Replication.ConvergenceIff | backend/api/ws.py:44-56 | **Main result:** a browser that is drained and lost nothing, with no committed record awaiting publication, shows the database's tags and timestamps if and only if no tag its snapshot lacked has a negative newest timestamp |
| Ties.RecordsConvergeIff | backend/repository/sql/upsert_current_position.sql:29-29 | **Main result:** record by record, over all runs: every run that handles given messages ends with the database's very records on its drained, drop-free browsers if and only if no two different messages tie at a tag's newest time |
| Ties.ScreensAgreeIff | frontend/src/hooks/usePositions.ts:104-112 | **Main result:** any two drained, drop-free browsers of any two runs over given messages show the same records if and only if no two different messages tie at a tag's newest time |
| Replication.ConvergenceUnderDrops | backend/broadcast.py:32-37 | **Main result:** with drops the drained map is the snapshot overlaid with the accepted publications, and up to date on a tag exactly when one of those carries the tag's newest timestamp |
| Replication.StreamIsUpToDate | backend/api/ws.py:33-56 | **Main result:** in every reachable state a connection carries the snapshot and then, of the positions taken from its queue, exactly those, in order, whose timestamp is at least that of their tag's snapshot row, or at least 0 without one |
| Scenarios.DropsCanLeaveBehind | backend/broadcast.py:32-37 | **Main result:** for every positive bound some run leaves a drained browser with an older timestamp than the database, everything being published |
| Settling.CanSettle | backend/app.py:39-86 | **Main result:** from every reachable state and for every browser some run without a restart or a lost channel acknowledges every valid message and leaves the browser drained without drops, the state in which convergence holds |
| Replication.SameMessagesSameTable | backend/repository/sql/upsert_current_position.sql:11-29 | **Main result:** any two runs that handled the same messages, however ordered, redelivered, failed or restarted, end with the same tags and timestamps, and the same table if no two messages tie at a tag's newest time |
| Replication.NoValidMessageLost | backend/app.py:45-86 | **Main result:** an acknowledged message was malformed, tag-less, or committed and published; any other is ready at the broker or out with exactly one live handler, never both |
| Accounting.FailedNeedsRetry | backend/app.py:74-79 | **Main result:** a message whose handler failed is unacknowledged, and in any continuation it is acknowledged only after a handler commits it |
| Accounting.AcksEqualOutcomesIff | backend/app.py:45-84 | **Main result:** with no handler mid-flight acknowledgements = processed + malformed + tag-less if and only if no finished handling was given up, its channel gone, since the last restart |
| Accounting.QueueAccounting | backend/broadcast.py:20-37 | **Main result:** in the whole system, from subscribing on and while the connection stays open: the queue was offered exactly what was published since, consumed then queued is an in-order subsequence of that, and published = consumed + queued + dropped, each drop with exactly the bound outstanding |
| Accounting.OthersDoNotMatter | backend/broadcast.py:32-37 | **Main result:** leaving out of any run whatever other browsers do gives a run that ends with the same backend and the same map, queue and socket for the browser that stays |
| Replication.CurrentIsIndexOfLog | backend/repository/positions.py:53-57 | **Main result:** in every reachable state a tag has a row iff it occurs in the log, and the row is the last-applied of the tag's newest events |
| Snapshots.FilterInvisibleIff | backend/api/ws.py:21-33 | **Main result:** for any snapshot and stream the browser ends with the same map with and without the stale filter iff no tag unknown to the snapshot comes at negative times only |
| Positions.OrderInsensitiveIff | backend/repository/sql/upsert_current_position.sql:29-29 | **Main result:** every reordering and repetition gives the same table iff no two different records share a tag's newest time |
| LiveView.PositionsHook.UpdateEps | frontend/src/hooks/usePositions.ts:48-59 | **Main result:** however much was pruned before, it reports exactly how many of all events ever recorded have time >= now - 1000 |
| History.DownloadTag | frontend/src/components/HistoryPlayer.tsx:74-97 | **Main result:** the paging loop ends, and every event present at its start is collected while events are inserted anywhere; in a still log each exactly once, in listing order |
| Replay.ShownBetween | frontend/src/components/HistoryPlayer.tsx:72-99 | **Main result:** under concurrent logging what is shown at t lies between the past table of the log at the start and at the end of the download, duplicates making no difference |
| Replay.ExactPastIff | frontend/src/hooks/useHistoryPlayer.ts:144-146 | **Main result:** the very records are shown, in whatever order and however often the events were loaded, if and only if no two of them tie at a tag's newest time |
| Replay.ReplayEndsAtCurrent | backend/repository/positions.py:53-57 | **Main result:** in every reachable state, replaying all of the log to its end shows the database's tags and timestamps, its very table when nothing ties at the newest times, and what a drained, drop-free browser shows |
| Playback.PlaybackMap | frontend/src/hooks/useHistoryPlayer.ts:52-59 | **Main result:** for any unsorted points, sort and early-break scan give per tag the newest point at or before t, ties won by the later-loaded |
| Player.PlayerInvariant | frontend/src/hooks/useHistoryPlayer.ts:68-172 | **Main result:** after any operations time is null iff nothing is loaded and else within the range, playing implies loaded, the map is empty or that of the time, and while playing the browser owes a frame |
| Player.ClockClosedForm | frontend/src/hooks/useHistoryPlayer.ts:68-113 | **Main result:** after play and any frames, redundant callbacks and speed changes, the time is min(end, start + sum of speed times elapsed), and it plays iff that has not reached the end |
| Player.PauseAndResume | frontend/src/hooks/useHistoryPlayer.ts:98-123 | **Main result:** a pause keeps time, map and points, stray callbacks included, and the next play goes on from there: the simulated times before and after it add up |
| Player.PlaybackStops | frontend/src/hooks/useHistoryPlayer.ts:81-91 | **Main result:** with frames at least d apart, playback has stopped exactly at the end once their number times d covers the rest |
| Scanning.ScanIsComplete | stream_handler/ls1000_parser.py:349-349 | **Main result:** findall returns the texts of the one and only scan: ordered, non-overlapping, longest literals, none left out |
| Numbers.FloatIs | stream_handler/ls1000_parser.py:391-405 | **Main result:** a decimal, with or without sign, point, leading or trailing digits and white space, is read as the number whose point, moved behind all digits, makes it the integer they write |
| Ls1000RoundTrip.RoundTrip | stream_handler/ls1000_parser.py:60-93 | **Main result:** rendering any display, status1, status2 or gpsposi record, with missing, empty, unreadable and surplus fields wherever the parser allows them, and parsing it gives back tag, timestamp, layer, coordinates, area and status |
| Ls1000RoundTrip.PaddedRoundTrip | stream_handler/ls1000_parser.py:42-93 | **Main result:** the same with white space around the message, the type and every field, and with the type in letters of either case |
| Ls1000RoundTrip.AcceptedHasRecord | stream_handler/ls1000_parser.py:39-93 | **Main result:** conversely every accepted message says the same as some record, whose canonical text is parsed to the same event |
| Ls1000RoundTrip.FaultIsNamed | stream_handler/ls1000_parser.py:60-93 | **Main result:** an error names what to repair: another timestamp, other coordinates or none of the same number of fields make the message accepted, according to the code; a bad type is repaired by no fields; the error carries the text as received |
| Replication.Convergence | backend/app.py:67-82 | with timestamps >= 0 the drained browser and the current table have the same tags and timestamps, and are equal when no two different records tie at a tag's newest time |
| Ties.RecordsAgreeIff | frontend/src/hooks/usePositions.ts:104-112 | in one state: such a browser shows exactly the table if and only if for each tag the last of the newest records among its snapshot row and the accepted publications is the last-committed one |
| Ties.TieKeepsApart | backend/app.py:67-82 | for any messages that tie at a tag's newest time and any bound, a run whose two handlers commit in one order and publish in the other leaves one record in the table and the other on screen |
| Scenarios.NegativeTimeLeavesBehind | backend/api/ws.py:33-33 | for every positive bound a run without drops, everything being published, leaves a drained browser without a tag that first reported at time -1 |
| Replication.SameMessagesSameScreens | frontend/src/hooks/usePositions.ts:85-113 | drained, drop-free browsers of two such runs show the same tags and timestamps |
| Replication.CurrentIsNewestMessage | backend/app.py:45-84 | once every valid message is acknowledged the table holds, for exactly the tags named, a message with the newest timestamp among all produced ones |
| Replication.BrokerDrainedSettles | backend/app.py:81-84 | when every valid message is acknowledged, every committed record has been published |
| Replication.CommitBeforePublish | backend/app.py:67-82 | whatever a handler is about to publish is already logged, and the table is at least as new for its tag |
| Replication.AcksAddUp | backend/app.py:45-84 | with no handler mid-flight acknowledged + unacknowledgeable = processed + malformed + tag-less; at most 10 deliveries are out at once |
| Accounting.AckCanBeLost | backend/app.py:45-84 | a run after which, with no handler mid-flight, the balance does not hold |
| Accounting.CountersCount | backend/app.py:51-84 | between restarts each counter grows by one exactly at what it is named after: a publication, a body that is not JSON, one without a tag, a failed write, an acknowledgement |
| Replication.QueuesConserved | backend/broadcast.py:20-37 | in every reachable state what a connection's queue was offered is the latest of what was published, and consumed followed by queued is an in-order subsequence of it, within the bound |
| Replication.ReachableInv | backend/app.py:39-91 | custody, index, nothing-lost, counting and session invariants hold in every reachable state |
| Backend.StepKeepsInv | backend/app.py:39-91 | every step of broker, handler and database keeps the backend invariant |
| Backend.StepKeepsCustody | backend/app.py:45-45 | every step keeps each message in exactly one place: ready, out with one live handler, or acknowledged |
| Backend.StepKeepsNothingLost | backend/app.py:45-84 | every step keeps: acknowledged means rejected or committed and published, and a committed but unpublished record belongs to a message the broker still holds |
| Backend.StepKeepsCounted | backend/app.py:51-84 | every step keeps the balance of acknowledgements and counted outcomes |
| Sessions.MoveKeepsSession | backend/api/ws.py:41-61 | every move of a session keeps the session invariant and never takes its browser's map backwards |
| Sessions.PublishKeepsSession | backend/broadcast.py:32-37 | offering a logged record to a session, dropped or not, keeps the session invariant, including that there is no gap between snapshot and stream |
| Sessions.CommitKeepsSession | backend/repository/sql/upsert_current_position.sql:11-29 | a commit at any moment keeps the session invariant |
| Sessions.NextFrame | backend/api/ws.py:47-56 | the first frame a browser receives is the snapshot, and every later one is the next unfiltered live position |
| Sessions.NextFrameIsUpToDate | backend/api/ws.py:33-56 | no frame after the snapshot is older than the snapshot's row of its tag |
| Sessions.DrainedUnderDrops | backend/api/ws.py:52-56 | what a drained session shows, with drops, provided no tag reached it at negative times only |
| Sessions.DrainedConvergesIff | backend/api/ws.py:44-56 | a drained session without drops agrees with the table iff no tag is hidden by the filter |
| Snapshots.HiddenTags | backend/api/ws.py:26-33 | exactly which tags the filter hides altogether |
| Snapshots.FreshIsUpToDate | backend/api/ws.py:26-33 | the stale filter keeps exactly the positions at least as new as their tag's snapshot row, or not negative without one, in order |
| Snapshots.NegativeTimestampIsHidden | backend/api/ws.py:33-33 | a concrete stream for which the filter changes the map |
| Snapshots.SnapshotRoundTrip | frontend/src/hooks/usePositions.ts:90-98 | the map built from the rows of a table, in any order, is that table |
| Broadcasting.QueueConservation | backend/broadcast.py:20-37 | over any history consumed then queued is an in-order subsequence of what was put, the bound holds, and put = consumed + queued + dropped with drops only when exactly the bound is outstanding |
| Broadcasting.NoDropsIff | backend/broadcast.py:32-37 | nothing was dropped iff consumed then queued is all that was put |
| Broadcasting.ClientQueue.PutNowait | backend/broadcast.py:32-37 | appends unless a positive bound is reached, and then changes nothing |
| Broadcasting.Broadcast.Publish | backend/broadcast.py:32-37 | every subscriber is offered the message exactly once, whatever the other queues hold; other queues are untouched |
| Broadcasting.Broadcast.Subscribe | backend/broadcast.py:20-26 | a fresh empty queue joins the subscribers |
| Broadcasting.Broadcast.Unsubscribe | backend/broadcast.py:28-30 | exactly that queue leaves, and one that is no subscriber is ignored |
| Positions.FoldIsIndex | backend/repository/sql/upsert_current_position.sql:11-29 | upserting a log from empty holds exactly its tags, each at its last-applied newest record |
| Positions.OrderInsensitiveTimes | backend/repository/sql/upsert_current_position.sql:11-29 | any reordering and repetition of records gives the same tags and timestamps |
| Repository.Database.PersistEnvelope | backend/repository/positions.py:53-57 | log and table change together or, if a statement or the commit fails, not at all; the table stays the index of the log and never goes backwards |
| Repository.Database.UpsertCurrentPosition | backend/repository/sql/upsert_current_position.sql:1-29 | the row is inserted, or overwritten unless the stored one is strictly newer |
| Repository.Database.GetAllCurrentPositions | backend/repository/positions.py:82-86 | every row of the table once, in the database's order of tags |
| Consumer.MessageHandler.OnMessage | backend/app.py:39-86 | acknowledges, writes, announces and counts exactly as the interleaved system's steps do, one counter for each outcome, and offers the position to every subscriber iff it was written, after writing it |
| Consumer.MessageHandler.WriteThenAnnounce | backend/app.py:67-84 | a failed write announces nothing, counts an error and leaves the message unacknowledged; a good one is announced after it was written |
| Consumer.MessageHandler.Refuse | backend/app.py:47-58 | malformed and tag-less bodies are counted and acknowledged, others raise and are given back |
| Scenarios.HandlingAlone | backend/app.py:39-86 | the steps of one uninterrupted handling are enabled in the interleaved system, and leave the message acknowledged and recorded or back with the broker with nothing written |
| Scenarios.CanDrain | backend/api/ws.py:52-56 | a streaming browser can always drain by its own moves without losing what was accepted |
| Settling.CanAgree | frontend/src/hooks/usePositions.ts:69-98 | and after one more reconnect the browser shows the database's very table, whatever the timestamps and ties |
| Scenarios.ReconnectHeals | frontend/src/hooks/usePositions.ts:69-98 | after a reconnect and its snapshot the browser holds the database's table exactly |
| LiveView.PositionsEndpoint.Connect | backend/api/ws.py:41-50 | subscribes, then sends a snapshot of the whole table, from which the browser rebuilds it |
| LiveView.PositionsEndpoint.BuildTimestamps | backend/api/ws.py:21-23 | the loop computes the snapshot's timestamp map |
| LiveView.PositionsEndpoint.StreamQueued | backend/api/ws.py:52-56 | empties the queue and sends exactly the positions that are not older than the snapshot, in order |
| LiveView.PositionsEndpoint.ForwardOne | backend/api/ws.py:53-56 | takes the oldest queued position and sends it iff its timestamp is at least that of its tag in the snapshot, or at least 0 without one |
| LiveView.DequeueAllStreams | backend/api/ws.py:52-56 | the automaton's dequeue move, repeated, takes and sends exactly what the streaming loop does |
| LiveView.PositionsHook.OnMessage | frontend/src/hooks/usePositions.ts:85-113 | the map and the snapshot flag change as the session's receive move says; only live positions are recorded; a second array on one connection would become an untagged entry and count as an event; nothing changes once unmounted |
| LiveView.PositionsHook.BuildMap | frontend/src/hooks/usePositions.ts:92-97 | the loop builds the snapshot's table |
| LiveView.PositionsHook.RecordEvent | frontend/src/hooks/usePositions.ts:61-67 | the event joins the full history and the pruned one |
| LiveView.PruningKeepsWindow | frontend/src/hooks/usePositions.ts:50-57 | pruning to the first entry inside the window keeps the count exact now and for every later reading |
| History.ListingIsCorrect | backend/repository/sql/select_position_history.sql:3-5 | a listing holds exactly the rows of the tag with from <= time <= to, each end only if given, each once, newest first |
| History.ListingIff | backend/repository/sql/select_position_history.sql:1-5 | if a rule settles ties, a sequence of rows is the listing exactly when it holds the rows of the tag within the period, each once, newest first and equal timestamps by the rule |
| History.ListingIsPermutation | backend/repository/sql/select_position_history.sql:1-5 | a listing is a rearrangement of the selected events |
| History.ListingGrows | backend/repository/sql/select_position_history.sql:3-6 | whatever is inserted meanwhile and wherever it sorts, the old listing stays an in-order part of the new one |
| History.CountIsListingLength | backend/repository/positions.py:122-136 | the count equals the number of rows the listing has |
| History.PageHolds | backend/repository/sql/select_position_history.sql:6-6 | a page holds the rows at its offset, as many as asked for unless the listing ends |
| History.Fetch | backend/api/positions.py:27-32 | one request, rows read before the count, advances the download; a short page means everything present at the start is collected |
| History.HandleLoad | frontend/src/components/HistoryPlayer.tsx:62-105 | all selected tags, or the first request that is not answered, after which none is made: refused by the server the error names its tag, otherwise it does not; nothing for an empty selection; every event of a selected tag with from <= time <= to that was present at the start is loaded, and every loaded point is one; in a still log exactly the listings |
| Playback.SortedIsStable | frontend/src/hooks/useHistoryPlayer.ts:145-145 | sorting gives time order, keeps every point, and keeps the order of ties |
| Playback.ScanTakesUpTo | frontend/src/hooks/useHistoryPlayer.ts:55-58 | over sorted points the early break takes exactly the points at or before t |
| Playback.PlaybackGrows | frontend/src/hooks/useHistoryPlayer.ts:52-59 | as t grows the map only gains tags and newer timestamps |
| Player.SeekSetsProgress | frontend/src/hooks/useHistoryPlayer.ts:42-50 | for a non-zero duration the progress after seek(p) is p clamped to [0, 1] |
| Player.NoProgressWithoutRange | frontend/src/hooks/useHistoryPlayer.ts:44-50 | without points, without a time or with a range of a single moment the progress is 0 |
| Player.SeekReaches | frontend/src/hooks/useHistoryPlayer.ts:130-142 | every moment of the range is reached by seeking to some fraction, and its map is shown |
| Player.HistoryPlayer.ComputePositions | frontend/src/hooks/useHistoryPlayer.ts:52-62 | the loop with its break computes the map of the scanned prefix |
| Player.HistoryPlayer.OnFrame | frontend/src/hooks/useHistoryPlayer.ts:68-96 | a frame callback changes the whole state as the specification's tick |
| Player.HistoryPlayer.AdvanceClock | frontend/src/hooks/useHistoryPlayer.ts:77-91 | the clock and the map move to min(previous + speed times elapsed, end), stopping there |
| Player.HistoryPlayer.Start | frontend/src/hooks/useHistoryPlayer.ts:98-113 | play, rewinding from the end |
| Player.HistoryPlayer.Stop | frontend/src/hooks/useHistoryPlayer.ts:115-123 | not playing, with time, map, points and speed as before; only the latest requested frame is cancelled |
| Player.HistoryPlayer.SeekTo | frontend/src/hooks/useHistoryPlayer.ts:130-142 | clamped seek, and the map of the new time; playing, speed and frames as before |
| Player.HistoryPlayer.LoadPoints | frontend/src/hooks/useHistoryPlayer.ts:144-163 | sorted points, time at the earliest of them, empty map, stopped, speed as before |
| Player.HistoryPlayer.ResetAll | frontend/src/hooks/useHistoryPlayer.ts:165-172 | paused, with nothing loaded |
| Replay.ShownIsThePast | frontend/src/hooks/useHistoryPlayer.ts:130-146 | in a still log a seek to t shows, for each selected tag, the newest logged event in the period at or before t, the very record when none of those tie at a tag's newest time |
| Replay.LoadAndSeek | frontend/src/components/HistoryPlayer.tsx:72-99 | download, load and seek composed: the screen agrees with the log at the time shown; it is empty and without a time if there was no point; a failed download changes nothing |
| Numbers.IntRoundTrip | stream_handler/ls1000_parser.py:371-389 | every integer survives printing and parsing |
| Numbers.IntIs | stream_handler/ls1000_parser.py:379-387 | signed digits with white space around are read as the number they write |
| Numbers.HexRoundTrip | stream_handler/ls1000_parser.py:384-385 | every number written in base sixteen behind 0x, in letters of either case, is read back |
| Numbers.IntForm | stream_handler/ls1000_parser.py:379-389 | nothing but these two forms is read as an integer |
| Numbers.FloatRoundTrip | stream_handler/ls1000_parser.py:391-405 | every decimal literal is read as its value |
| Numbers.LiteralIs | stream_handler/ls1000_parser.py:402-402 | the value of a literal, its point moved behind all digits, is the integer they write |
| Numbers.ThreeDigitDecimal | stream_handler/ls1000_parser.py:402-402 | for instance, a digit, a point and two digits are read as a hundredth of the three |
| Numbers.FloatForm | stream_handler/ls1000_parser.py:391-405 | nothing but a decimal with white space around is read as one |
| Numbers.FloatHasLiteral | stream_handler/ls1000_parser.py:391-405 | whatever is read as a number, some literal has its value |
| Numbers.MatchIsLongest | stream_handler/ls1000_parser.py:36-36 | the coordinate pattern takes the longest number literal at a position, or nothing if there is none |
| Scanning.ScanIsUnique | stream_handler/ls1000_parser.py:349-349 | that description of a scan has only one solution |
| Scanning.NoDigitEscapes | stream_handler/ls1000_parser.py:36-36 | every digit of a text lies in a match |
| Scanning.ThreeLiterals | stream_handler/ls1000_parser.py:348-351 | three literals separated by other text are recovered exactly, ahead of whatever the text after them holds |
| Scanning.PackedIsNoNumber | stream_handler/ls1000_parser.py:341-346 | a field that packs three numbers is not read as one, so the scan is reached however many fields follow |
| Ls1000RoundTrip.LocationRoundTrip | stream_handler/ls1000_parser.py:338-353 | coordinates in three fields, or packed in one and followed by any fields, are recovered; any other fields, including none, give no coordinates and the area of the second of them |
| Ls1000RoundTrip.LocationIsWhole | stream_handler/ls1000_parser.py:338-353 | a location has all three coordinates or none |
| Ls1000RoundTrip.NoTypeFault | stream_handler/ls1000_parser.py:42-58 | white space alone is an empty message, text without a colon has no format, and what begins with a brace is JSON |
| Ls1000RoundTrip.TokensAreFields | stream_handler/ls1000_parser.py:78-78 | each field, empty ones included, arrives as the token at its own place |
| Ls1000RoundTrip.ReadRoundTrip | stream_handler/ls1000_parser.py:60-93 | any message that strips and splits into a record's type and fields is parsed into what the record means |
| Ls1000RoundTrip.DisplayRoundTrip | stream_handler/ls1000_parser.py:175-212 | the display parser recovers a display record from its fields |
| Ls1000RoundTrip.Status1RoundTrip | stream_handler/ls1000_parser.py:214-251 | the status1 parser recovers a status1 record from its fields |
| Ls1000RoundTrip.Status2RoundTrip | stream_handler/ls1000_parser.py:253-288 | the status2 parser recovers a status2 record from its fields |
| Ls1000RoundTrip.GpsPosiRoundTrip | stream_handler/ls1000_parser.py:290-336 | the gpsposi parser recovers a gpsposi record from its fields |
| Ls1000RoundTrip.DisplayLayout | stream_handler/ls1000_parser.py:178-212 | the fields of a display message, one by one: length, device, number, timestamp, layer, three coordinates, rest |
| Ls1000RoundTrip.AreaLayout | stream_handler/ls1000_parser.py:206-206 | without coordinates the seventh field of a display message is the area |
| Ls1000RoundTrip.Status1Layout | stream_handler/ls1000_parser.py:217-251 | the fields of a status1 message: length, kind, device, timestamp, battery, layer, velocity, status |
| Ls1000RoundTrip.Status2Layout | stream_handler/ls1000_parser.py:256-288 | the fields of a status2 message: length, device, number, timestamp, layer |
| Ls1000RoundTrip.GpsPosiLayout | stream_handler/ls1000_parser.py:293-336 | the fields of a gpsposi message: length, device, number, timestamp, layer, longitude, latitude, height |
| LiveView.PositionsHook.OnOpen | frontend/src/hooks/usePositions.ts:79-83 | connected, and the retry count starts again |
| LiveView.PositionsHook.OnClose | frontend/src/hooks/usePositions.ts:115-132 | disconnected, one more retry, the map stays on screen |
| LiveView.PositionsHook.Connect | frontend/src/hooks/usePositions.ts:69-77 | the flag is cleared while the map stays on screen |
| LiveView.PositionsEndpoint.Disconnect | backend/api/ws.py:59-61 | the queue leaves the subscribers and the gauge goes down by one |
| Player.HistoryPlayer.ChangeSpeed | frontend/src/hooks/useHistoryPlayer.ts:125-128 | only the speed changes |
| Text.SplitOfJoin | stream_handler/ls1000_parser.py:78-78 | splitting undoes joining, so empty fields never move others |
| Text.JoinOfSplit | stream_handler/ls1000_parser.py:78-78 | joining undoes splitting, and no part contains the separator |
| Text.StripOfPadded | stream_handler/ls1000_parser.py:42-42 | stripping removes white space around a text and nothing else |
| Text.Padding | stream_handler/ls1000_parser.py:42-42 | every text is its stripped text with white space around it |

## Left out

- RabbitMQ, PostgreSQL, asyncio and the WebSocket protocol: a redelivering broker, atomic transactions in a serial order, queues in order, a socket that delivers in order and may close at any time.
- Which of several open sockets a browser listens to: there is one connection per browser at a time. React state setters are assignments.
- The server coroutine of a closed socket lives on until its next send; what its queue receives meanwhile reaches nobody, so the model ends it with the socket.
- Every column besides tag and timestamp is one opaque value; that the snapshot's `origin` and the stream's agree is assumed.
- A payload whose `tag_id` is not text: tags are texts.
- SQL text: the time filters and the queries are predicates and functions on the log.
- The bounds 1 to 1000 and 0 that the history endpoint demands of its parameters; the paging loop keeps them.
- Reconnect timing and the five-second retry of the consumer: a reconnect or a restart may come at any time.
- Unmounting's closing of the socket and of the timer; the handlers' own mounted guards are modelled.
- `backend/consumer.py`, `core/udp`, envelope building, the JSON normaliser and schema, configuration, tracing, logging, health endpoints, load tools, maps and other components.
- Repository.Database.PersistEnvelope: a failing commit changes nothing here; the case of a commit that took effect but was reported as failed is a step of the system (`CommitUnconfirmed` in `Backend.dfy`).
- LiveView.PositionsHook.OnMessage: assumes that the clock does not go back.
- LiveView.PositionsHook.UpdateEps: assumes that the clock does not go back.
- Player.ClockClosedForm: assumes that frame timestamps do not go back, and speaks of frames and speed changes only; `Player.PauseAndResume` adds a pause.
- Player.PlayerInvariant: assumes that no frame comes with a timestamp before the previous frame's; time is a real number, so rounding is not modelled.
- History.DownloadTag: assumes that ties are ordered consistently between pages, by any fixed rule, since the query does not order them.
- Playback.SortedIsStable: the library sort is the stable insertion sort here.
- Numbers.FloatRoundTrip: reals instead of floating point, and no exponents, underscores, infinities, NaN or digits beyond ASCII in the numbers read, so a text such as `1_000_000` is no number here.
- Numbers.IntRoundTrip: no underscores, no digits beyond ASCII and no limit on the number of digits.
- Scanning.ThreeLiterals: no digit, point or sign stands before the first literal or between two, nor directly after the last; literals that touch, as in `1+2+3`, are covered by `Scanning.ScanIsComplete` only.
- Text.SplitOfJoin: text is ASCII, and so is white space.
- Ls1000RoundTrip.RoundTrip: a packed field is written as `Scanning.ThreeLiterals` says and numbers that are read are written as literals; `Ls1000RoundTrip.PaddedRoundTrip` adds any case of the type and any white space, and `Ls1000RoundTrip.AcceptedHasRecord` shows that every other accepted spelling says the same as one of these. Messages in JSON, which the parser hands to another method, and the wording of error messages are not modelled.
