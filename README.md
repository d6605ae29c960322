# NHL play-by-play ingestion, modelled in Dafny

This project models the ingestion script `nhl/game.py`. Starting from January 1 of a season, the script walks a
day cursor for a configurable number of days (365 by default). For each day it fetches the league schedule. For
every game listed in every week of that schedule it fetches the play-by-play, subject to an optional single-game
filter. It turns every play into a document for the `nhl` index and collects one bulk "index" operation per play.
The `_id` of each operation is "{game id}:{timestamp}". The whole batch goes to the bulk loader once, and only if
it is non-empty. Finally the script reports the number of plays it read.

The model is split into these modules:

- `Clock` (`clock.dfy`) reads the play clock. It parses the two minute digits and the seconds digits of
  `timeInPeriod` and computes the elapsed offset from the start of the game. Every period, overtime included,
  counts as 20 minutes.
- `Transform` (`transform.dfy`) is the pure per-play transform. It covers:
  - the timestamp, which is the week's date plus the elapsed offset;
  - home/away attribution, decided by comparing the owner id with the home id;
  - the "Home Team", "Away Team" and "Venue" defaults;
  - the bulk operation and its `_id`.
- `BulkIndex` (`bulk_index.dfy`) gives the meaning of a submitted batch. The index maps an `_id` to a document.
  Each operation overwrites the entry for its `_id`, in batch order. The module proves:
  - re-ingestion is idempotent;
  - a later write under the same `_id` wins;
  - repeated runs of operations collapse.
- `Ingest` (`ingest.dfy`) is the imperative driver. It has one method per loop of the script:
  - the day cursor (`Run`);
  - one calendar day, skipped when its schedule is not served (`IngestCalendarDay`);
  - the weeks of a day (`IngestDay`);
  - the games of a week (`IngestWeek`);
  - one listed game, subject to the filter and the fetch (`IngestListedGame`);
  - the plays of a game (`IngestGame`).

  Each method is proved against recursive specification functions (`Walk`, `Entries`, `PlayTotal`), and the
  properties of the run are lemmas about those functions.

The two HTTP endpoints are inputs:

- `schedules: map<Day, Schedule>` is the schedule served for a day;
- `payloads: map<int, Payload>` is the play-by-play served for a game id.

A day or game id that is not a key stands for a response whose status is not 200. Calendar dates are day numbers
(`Day = int`). A timestamp is a number of seconds, `day * 86400 + offset`. The `_id` is kept as its two components,
`DocKey(gameId, timestamp)`.

Behaviour of the code that the model keeps:

- Every week of a day's `gameWeek` is processed, not only the cursor's day. A game listed by the schedules of
  several cursor days is therefore processed several times. The reported total counts every repeat, while the
  index keeps a single copy (`Ingest.RepeatedGame`).
- Two plays of one game with the same period and clock reading get the same `_id`. The later one replaces the
  earlier one in the index (`Transform.SameKeyIffSameOffset`, `Transform.KeyCollisionIff`).
- Plays also collide across a period boundary. A play at "20:00" of period n and a play at "00:00" of period
  n + 1 both lie n * 1200 seconds into the game, so they get the same `_id` and the later one replaces the
  earlier one (`Transform.PeriodBoundaryCollision`).
- A play is attributed to the home team exactly when its `eventOwnerTeamId` equals `homeTeam.id` as values.
  If both ids are absent they compare equal, so the play counts as the home team's. In every other case,
  including an absent owner id, the names are swapped. The code has no "unknown" attribution.
- A malformed play, such as a missing or non-numeric clock text or a missing period descriptor, raises an
  exception in the code and aborts the run. The code does not skip a malformed play, so being well-formed is a
  precondition of the model (`PlayWellFormed`, `PayloadsWellFormed`).

## Model

| member | source | states |
|---|---|---|
| Clock.Minutes | nhl/game.py:124 | the minutes are the number written by the first two characters of the clock text, so they are below 100 |
| Clock.ElapsedExample | nhl/game.py:124-126 | period 2 at "05:30" is 25 minutes 30 seconds into the game |
| Clock.PeriodWindow | nhl/game.py:124-126 | for a clock under 20:00 with seconds under 60, the offset lies in [(period-1)*1200, period*1200) seconds |
| Clock.LaterClockLaterOffset | nhl/game.py:124-126 | within one period, a later clock reading gives a strictly later offset |
| Clock.ElapsedInjective | nhl/game.py:124-126 | for in-period clocks, two offsets are equal if and only if period, minutes and seconds are all equal |
| Clock.ParseFormat | nhl/game.py:124-125 | reading back "MM:SS" rendered from minutes and seconds gives those minutes and seconds |
| Clock.FormatParse | nhl/game.py:124-125 | canonical "MM:SS" text is readable, and rendering what was read gives the same text back |
| Transform.DocumentFields | nhl/game.py:115-144 | all of the following, for both outcomes of the owner comparison: <br>• play id, period, clock text, type and owner id are copied unchanged; <br>• timestamp minus date equals (minutes + (period-1)*20)*60 + seconds; <br>• game id and date come from the game reference; <br>• home, away and venue names fall back to "Home Team", "Away Team" and "Venue"; <br>• the owner is the home team exactly when the owner id equals the home id, and the away team otherwise |
| Transform.EntryFields | nhl/game.py:146-152 | each operation is an "index" into "nhl", its source is the play's document, and its `_id` is the document's game id and timestamp |
| Transform.AttributionIsPermutation | nhl/game.py:130-132 | (teamnick, teamnick_opposing) is always a permutation of (home name, away name) |
| Transform.SameKeyIffSameOffset | nhl/game.py:126-150 | two plays of one game and date get the same `_id` if and only if their elapsed offsets are equal |
| Transform.KeyCollisionIff | nhl/game.py:124-150 | for in-period clocks, two plays of one game collide on `_id` if and only if period, minutes and seconds all agree |
| Transform.PeriodBoundaryCollision | nhl/game.py:124-150 | a play at "20:00" of period n and a play at "00:00" of period n + 1 of the same game and date get the same `_id` |
| BulkIndex.LastWriteFound | nhl/game.py:37-42 | a key has a last write in a batch if and only if some operation of the batch carries that `_id`, and that operation's document is the one written |
| BulkIndex.UpsertAt | nhl/game.py:37-42 | after a batch, a key holds the document of the batch's last operation with that `_id`; keys the batch does not touch keep their old document |
| BulkIndex.UpsertKeys | nhl/game.py:37-42 | after a batch, the index's keys are its old keys plus the batch's `_id`s |
| BulkIndex.SameLastWrites | nhl/game.py:37-42 | two batches with the same last write for every key leave any index in the same state |
| BulkIndex.LastWriteAppend | nhl/game.py:37-42 | in a concatenation of batches, the later batch's write to a key wins |
| BulkIndex.UpsertSequential | nhl/game.py:37-42 | submitting two batches one after the other equals submitting their concatenation |
| BulkIndex.ReingestIdempotent | nhl/game.py:150-157 | submitting the same batch again leaves the index unchanged (re-ingestion overwrites and never duplicates) |
| BulkIndex.Overwritten | nhl/game.py:150 | operations whose `_id`s are all written again later in the batch leave no trace |
| BulkIndex.RepeatCollapses | nhl/game.py:150 | a run of operations that occurs twice stores the same index as the batch with only its second occurrence |
| Ingest.DayRange | nhl/game.py:78-81 | the cursor visits max(0, n) days |
| Ingest.DayRangeAt | nhl/game.py:78-81 | the i-th visited day is the start plus i |
| Ingest.GameRefs | nhl/game.py:95-97 | one game reference per listed game |
| Ingest.GameRefsAt | nhl/game.py:95-97 | the i-th reference is the i-th listed game id, dated with the week's date |
| Ingest.PlaysEntries | nhl/game.py:114-152 | one bulk operation per play |
| Ingest.PlaysEntriesAt | nhl/game.py:114-152 | the i-th operation is the one for the i-th play |
| Ingest.IngestGame | nhl/game.py:114-152 | the play loop appends exactly the game's operations, in play order, to the batch, and increases the count by the number of plays; the count stays equal to the batch length |
| Ingest.IngestListedGame | nhl/game.py:96-112 | a game rejected by the filter or whose play-by-play is not served adds nothing; otherwise its operations are appended |
| Ingest.IngestWeek | nhl/game.py:94-152 | the game loop appends the entries of the week's listed games, in listing order |
| Ingest.IngestDay | nhl/game.py:91-152 | the week loop appends the entries of every week of the day's `gameWeek` |
| Ingest.IngestCalendarDay | nhl/game.py:82-91 | a day whose schedule is not served adds nothing; otherwise its weeks are walked |
| Ingest.Run | nhl/game.py:77-159 | the run visits exactly the days start .. start+N-1, with N the entered offset or 365. The reported total equals the batch length and the sum of play counts over processed game occurrences. The bulk loader is called if and only if the total is positive, and then with exactly the walk's entries |
| Ingest.GamesStep | nhl/game.py:95-112 | one more listed game adds that game's entries |
| Ingest.WeeksStep | nhl/game.py:93-95 | one more week adds the entries of its games |
| Ingest.DaysStep | nhl/game.py:81-91 | one more visited day adds the entries of the games its schedule lists |
| Ingest.EntriesAppend | nhl/game.py:95-152 | accumulating two runs of listed games one after the other equals accumulating their concatenation |
| Ingest.EntriesCount | nhl/game.py:146 | the number of entries equals the sum of the play counts of the processed game occurrences |
| Ingest.FilteredEntries | nhl/game.py:99-100 | with a game filter set, every entry belongs to the filtered game, in its `_id` and in its document |
| Ingest.SkippedGame | nhl/game.py:99-109 | a game rejected by the filter, or whose play-by-play request is answered with a non-200 status, contributes nothing; the entries and the count are those of the other games |
| Ingest.WalkAppend | nhl/game.py:81-154 | walking two runs of days one after the other equals walking their concatenation |
| Ingest.SkippedDay | nhl/game.py:85-88 | a day whose schedule request is answered with a non-200 status is skipped, and the days before and after it still yield their games |
| Ingest.RepeatedGame | nhl/game.py:93-152 | a game processed on two cursor days is counted twice, yet the index after loading equals the one obtained by keeping only its later occurrence |
| Ingest.OneGameOneDay | nhl/game.py:77-159 | a one-day run with one game (2023020500) and one home play at period 1 "00:30" yields exactly one entry. The entry has period 1, time "00:30", the home team's name, game id 2023020500 and timestamp start + 30 s; the reported total is 1 |

## Left out

- Elasticsearch client construction from environment variables (`nhl/game.py:12-34`) is left out. It is
  configuration with no logic the run depends on.
- The bulk loader's call into the client library (`nhl/game.py:39`) is a foreign call. Its effect on the index is
  modelled as `BulkIndex.Upsert`. A sink failure, which the code logs and does not raise, is not modelled, and
  neither is partial success within a batch.
- HTTP requests and JSON decoding (`nhl/game.py:83, 90, 105, 111`) are replaced by the `schedules` and `payloads`
  input maps. As a consequence, a game fetched twice in one run gets the same response both times.
- Only a non-200 status is modelled as a failed request. The code also calls `requests.get` and `.json()`
  (`nhl/game.py:83, 90, 105, 111`) with no `try`. A connection error, or a 200 response whose body is not JSON,
  raises and aborts the whole run before the bulk load (`nhl/game.py:156-157`), so nothing is indexed and no
  total is printed. No timeout is set either, so a request can block the run indefinitely. None of this is in
  the model.
- The interactive prompts, `.env` loading (`nhl/game.py:9, 71-73`) and the unused `mappings` dictionary
  (`nhl/game.py:46-68`) are left out.
- Calendar arithmetic, `strptime` and `strftime` are replaced by integer day numbers. The ISO 8601 rendering of
  timestamps and of the `_id` is not modelled either. Keys are compared as (game id, seconds), which the rendering
  preserves because local naive datetimes have uniform days.
- The printed progress, error and total lines are not modelled. The total is returned instead.
- A schedule game entry without an `id`, and a week without a parseable `date`, are not modelled. Both are
  integers in the model.
- `Ingest.Run`, and every driver method, require every payload in the `payloads` map to be well-formed. The
  code raises on the first malformed play it reaches. The map can be restricted to the games the run actually
  fetches, so this excludes no run that completes.
- `Clock.WellFormed` admits only the ASCII digits `0`-`9`. Python's `int` also accepts surrounding whitespace, a
  sign, underscores and non-ASCII decimal digits, and those clock texts are outside the model.
- A `periodDescriptor` without a `number` raises in the code. In the model the period is always an integer.
