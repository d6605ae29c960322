/**
 * The ingestion driver: a day cursor walks the season from January 1 for a
 * configurable number of days; each day's schedule lists game weeks, each
 * week lists games; every game that passes the optional game-id filter and
 * whose play-by-play can be fetched contributes one bulk entry per play.
 * The whole run's entries are handed to the bulk loader once, if any.
 *
 * The two HTTP endpoints are inputs here: `schedules` maps a day to the
 * schedule served for it and `payloads` maps a game id to its play-by-play
 * payload; a day or game id that is not a key is a request answered with a
 * non-200 status.
 */
module Ingest {
  import opened Wrappers
  import opened Transform
  import BulkIndex

  /** One element of a schedule's `gameWeek`: its date and the ids of its games. */
  datatype Week = Week(date: Day, games: seq<int>)

  /** A day's schedule response; an absent `gameWeek` is the empty list. */
  datatype Schedule = Schedule(gameWeek: seq<Week>)

  /** A game as listed by a schedule: its id and the date of the week that lists it. */
  datatype GameRef = GameRef(id: int, date: Day)

  const DefaultDayCount := 365

  /** Number of days walked: the entered offset, or 365 when none was entered. */
  function DayCount(endOffset: Option<int>): int {
    endOffset.GetOr(DefaultDayCount)
  }

  /** The days the cursor visits: from `start`, one at a time, `n` of them (none when n <= 0). */
  function DayRange(start: Day, n: int): (days: seq<Day>)
    ensures |days| == if n <= 0 then 0 else n
  {
    if n <= 0 then [] else DayRange(start, n - 1) + [start + n - 1]
  }

  /** The i-th visited day is i days after the start. */
  lemma {:induction false} DayRangeAt(start: Day, n: int, i: nat)
    requires i < n
    ensures DayRange(start, n)[i] == start + i
  {
    if i < n - 1 {
      DayRangeAt(start, n - 1, i);
    }
  }

  /** Every game a week lists, in order, as a reference carrying the week's date. */
  function GameRefs(date: Day, games: seq<int>): (refs: seq<GameRef>)
    ensures |refs| == |games|
  {
    if games == [] then [] else GameRefs(date, games[..|games| - 1]) + [GameRef(games[|games| - 1], date)]
  }

  /** The i-th reference is the week's i-th game id with the week's date. */
  lemma {:induction false} GameRefsAt(date: Day, games: seq<int>, i: nat)
    requires i < |games|
    ensures GameRefs(date, games)[i] == GameRef(games[i], date)
  {
    if i < |games| - 1 {
      GameRefsAt(date, games[..|games| - 1], i);
    }
  }

  function WeeksRefs(weeks: seq<Week>): seq<GameRef> {
    if weeks == [] then []
    else
      var last := weeks[|weeks| - 1];
      WeeksRefs(weeks[..|weeks| - 1]) + GameRefs(last.date, last.games)
  }

  /** The games a day's schedule lists over all its weeks; nothing for a day whose fetch failed. */
  function DayRefs(schedules: map<Day, Schedule>, day: Day): seq<GameRef> {
    if day in schedules then WeeksRefs(schedules[day].gameWeek) else []
  }

  /** The schedule walk: every game listed on every visited day, in visiting order. */
  function Walk(schedules: map<Day, Schedule>, days: seq<Day>): seq<GameRef> {
    if days == [] then []
    else Walk(schedules, days[..|days| - 1]) + DayRefs(schedules, days[|days| - 1])
  }

  /** The game-id filter: no filter lets every game through, otherwise only that id. */
  predicate Selected(gameFilter: Option<int>, id: int) {
    gameFilter.None? || gameFilter.value == id
  }

  predicate PayloadsWellFormed(payloads: map<int, Payload>) {
    forall id | id in payloads :: PayloadWellFormed(payloads[id])
  }

  /** The bulk entries of one game occurrence, one per play, in play order. */
  function PlayEntries(ref: GameRef, payload: Payload): seq<BulkEntry>
    requires PayloadWellFormed(payload)
  {
    PlaysEntries(ref, payload, payload.plays)
  }

  function PlaysEntries(ref: GameRef, payload: Payload, plays: seq<RawPlay>): (entries: seq<BulkEntry>)
    requires forall i | 0 <= i < |plays| :: PlayWellFormed(plays[i])
    ensures |entries| == |plays|
  {
    if plays == [] then []
    else PlaysEntries(ref, payload, plays[..|plays| - 1]) + [MakeEntry(ref.id, ref.date, payload, plays[|plays| - 1])]
  }

  /** The i-th entry of a game is the bulk operation for its i-th play. */
  lemma {:induction false} PlaysEntriesAt(ref: GameRef, payload: Payload, plays: seq<RawPlay>, i: nat)
    requires forall j | 0 <= j < |plays| :: PlayWellFormed(plays[j])
    requires i < |plays|
    ensures PlaysEntries(ref, payload, plays)[i] == MakeEntry(ref.id, ref.date, payload, plays[i])
  {
    if i < |plays| - 1 {
      PlaysEntriesAt(ref, payload, plays[..|plays| - 1], i);
    }
  }

  /** Whether a listed game yields entries: it passes the filter and its play-by-play is served. */
  predicate Processed(gameFilter: Option<int>, payloads: map<int, Payload>, ref: GameRef) {
    Selected(gameFilter, ref.id) && ref.id in payloads
  }

  function RefEntries(gameFilter: Option<int>, payloads: map<int, Payload>, ref: GameRef): seq<BulkEntry>
    requires PayloadsWellFormed(payloads)
  {
    if Processed(gameFilter, payloads, ref) then PlayEntries(ref, payloads[ref.id]) else []
  }

  /** The entries accumulated from a sequence of listed games, in order. */
  function Entries(gameFilter: Option<int>, payloads: map<int, Payload>, refs: seq<GameRef>): seq<BulkEntry>
    requires PayloadsWellFormed(payloads)
  {
    if refs == [] then []
    else Entries(gameFilter, payloads, refs[..|refs| - 1]) + RefEntries(gameFilter, payloads, refs[|refs| - 1])
  }

  /** Sum of the play counts of the processed game occurrences. */
  function PlayTotal(gameFilter: Option<int>, payloads: map<int, Payload>, refs: seq<GameRef>): nat {
    if refs == [] then 0
    else
      var last := refs[|refs| - 1];
      PlayTotal(gameFilter, payloads, refs[..|refs| - 1])
        + (if Processed(gameFilter, payloads, last) then |payloads[last.id].plays| else 0)
  }

  /**
   * The play loop of one processed game: appends one entry per play to the
   * accumulated bulk list and counts it.
   */
  method IngestGame(ref: GameRef, payload: Payload, bulk: seq<BulkEntry>, totalPlays: nat)
    returns (bulk': seq<BulkEntry>, totalPlays': nat)
    requires PayloadWellFormed(payload)
    requires totalPlays == |bulk|
    ensures bulk' == bulk + PlayEntries(ref, payload)
    ensures totalPlays' == totalPlays + |payload.plays| == |bulk'|
  {
    bulk', totalPlays' := bulk, totalPlays;
    var j := 0;
    while j < |payload.plays|
      invariant j <= |payload.plays|
      invariant bulk' == bulk + PlaysEntries(ref, payload, payload.plays[..j])
      invariant totalPlays' == |bulk'|
    {
      assert payload.plays[..j + 1][..j] == payload.plays[..j];
      bulk' := bulk' + [MakeEntry(ref.id, ref.date, payload, payload.plays[j])];
      totalPlays' := totalPlays' + 1;
      j := j + 1;
    }
    assert payload.plays[..j] == payload.plays;
  }

  /**
   * One game listed by a schedule: skipped when it does not match the game
   * filter, skipped when its play-by-play is not served, otherwise its
   * plays are appended.
   */
  method IngestListedGame(gameFilter: Option<int>, ref: GameRef, payloads: map<int, Payload>,
                          bulk: seq<BulkEntry>, totalPlays: nat)
    returns (bulk': seq<BulkEntry>, totalPlays': nat)
    requires PayloadsWellFormed(payloads)
    requires totalPlays == |bulk|
    ensures bulk' == bulk + RefEntries(gameFilter, payloads, ref)
    ensures totalPlays' == |bulk'|
  {
    if !Selected(gameFilter, ref.id) {
      return bulk, totalPlays;
    }
    if ref.id !in payloads {
      return bulk, totalPlays;
    }
    bulk', totalPlays' := IngestGame(ref, payloads[ref.id], bulk, totalPlays);
  }

  /**
   * The game loop of one week: every listed game that passes the filter and
   * whose play-by-play is served has its plays appended; the others are
   * skipped.
   */
  method IngestWeek(gameFilter: Option<int>, week: Week, payloads: map<int, Payload>,
                    bulk: seq<BulkEntry>, totalPlays: nat)
    returns (bulk': seq<BulkEntry>, totalPlays': nat)
    requires PayloadsWellFormed(payloads)
    requires totalPlays == |bulk|
    ensures bulk' == bulk + Entries(gameFilter, payloads, GameRefs(week.date, week.games))
    ensures totalPlays' == |bulk'|
  {
    bulk', totalPlays' := bulk, totalPlays;
    var games := week.games;
    var g := 0;
    while g < |games|
      invariant g <= |games|
      invariant bulk' == bulk + Entries(gameFilter, payloads, GameRefs(week.date, games[..g]))
      invariant totalPlays' == |bulk'|
    {
      var ref := GameRef(games[g], week.date);
      ghost var done := Entries(gameFilter, payloads, GameRefs(week.date, games[..g]));
      ghost var added := RefEntries(gameFilter, payloads, ref);
      GamesStep(gameFilter, payloads, week.date, games, g);
      bulk', totalPlays' := IngestListedGame(gameFilter, ref, payloads, bulk', totalPlays');
      AppendAssoc(bulk, done, added);
      g := g + 1;
    }
    assert games[..g] == games;
  }

  /** The week loop of one day whose schedule was served: every week of its `gameWeek`, not only the current day's. */
  method IngestDay(gameFilter: Option<int>, schedule: Schedule, payloads: map<int, Payload>,
                   bulk: seq<BulkEntry>, totalPlays: nat)
    returns (bulk': seq<BulkEntry>, totalPlays': nat)
    requires PayloadsWellFormed(payloads)
    requires totalPlays == |bulk|
    ensures bulk' == bulk + Entries(gameFilter, payloads, WeeksRefs(schedule.gameWeek))
    ensures totalPlays' == |bulk'|
  {
    bulk', totalPlays' := bulk, totalPlays;
    var weeks := schedule.gameWeek;
    var w := 0;
    while w < |weeks|
      invariant w <= |weeks|
      invariant bulk' == bulk + Entries(gameFilter, payloads, WeeksRefs(weeks[..w]))
      invariant totalPlays' == |bulk'|
    {
      ghost var done := Entries(gameFilter, payloads, WeeksRefs(weeks[..w]));
      ghost var added := Entries(gameFilter, payloads, GameRefs(weeks[w].date, weeks[w].games));
      WeeksStep(gameFilter, payloads, weeks, w);
      bulk', totalPlays' := IngestWeek(gameFilter, weeks[w], payloads, bulk', totalPlays');
      AppendAssoc(bulk, done, added);
      w := w + 1;
    }
    assert weeks[..w] == weeks;
  }

  /**
   * One step of the day cursor: the day's schedule is requested; when it is
   * not served the day is skipped, otherwise its weeks are walked.
   */
  method IngestCalendarDay(gameFilter: Option<int>, day: Day, schedules: map<Day, Schedule>,
                           payloads: map<int, Payload>, bulk: seq<BulkEntry>, totalPlays: nat)
    returns (bulk': seq<BulkEntry>, totalPlays': nat)
    requires PayloadsWellFormed(payloads)
    requires totalPlays == |bulk|
    ensures bulk' == bulk + Entries(gameFilter, payloads, DayRefs(schedules, day))
    ensures totalPlays' == |bulk'|
  {
    if day !in schedules {
      return bulk, totalPlays;
    }
    bulk', totalPlays' := IngestDay(gameFilter, schedules[day], payloads, bulk, totalPlays);
  }

  /**
   * The ingestion run. Returns the days whose schedule was requested, the
   * batch handed to the bulk loader (None when it is not called) and the
   * reported play total.
   */
  method Run(seasonStart: Day, gameFilter: Option<int>, endOffset: Option<int>,
             schedules: map<Day, Schedule>, payloads: map<int, Payload>)
    returns (visited: seq<Day>, submitted: Option<seq<BulkEntry>>, totalPlays: nat)
    requires PayloadsWellFormed(payloads)
    ensures visited == DayRange(seasonStart, DayCount(endOffset))
    ensures totalPlays == |Entries(gameFilter, payloads, Walk(schedules, visited))|
    ensures totalPlays == PlayTotal(gameFilter, payloads, Walk(schedules, visited))
    ensures submitted.Some? <==> totalPlays > 0
    ensures submitted.Some? ==> submitted.value == Entries(gameFilter, payloads, Walk(schedules, visited))
  {
    var bulk: seq<BulkEntry> := [];
    totalPlays := 0;
    visited := [];
    var current := seasonStart;
    var endDay := seasonStart + DayCount(endOffset);
    while current < endDay
      invariant current == seasonStart + |visited|
      invariant current <= endDay || visited == []
      invariant visited == DayRange(seasonStart, |visited|)
      invariant bulk == Entries(gameFilter, payloads, Walk(schedules, visited))
      invariant totalPlays == |bulk|
    {
      DaysStep(gameFilter, schedules, payloads, visited, current);
      bulk, totalPlays := IngestCalendarDay(gameFilter, current, schedules, payloads, bulk, totalPlays);
      visited := visited + [current];
      current := current + 1;
    }
    EntriesCount(gameFilter, payloads, Walk(schedules, visited));
    submitted := if |bulk| > 0 then Some(bulk) else None;
  }

  lemma AppendAssoc<T>(a: seq<T>, b: seq<T>, c: seq<T>)
    ensures a + b + c == a + (b + c)
  {
  }

  /** One more listed game adds that game's entries. */
  lemma GamesStep(gameFilter: Option<int>, payloads: map<int, Payload>, date: Day, games: seq<int>, g: nat)
    requires PayloadsWellFormed(payloads)
    requires g < |games|
    ensures Entries(gameFilter, payloads, GameRefs(date, games[..g + 1]))
            == Entries(gameFilter, payloads, GameRefs(date, games[..g])) + RefEntries(gameFilter, payloads, GameRef(games[g], date))
  {
    assert games[..g + 1][..g] == games[..g];
    var refs := GameRefs(date, games[..g + 1]);
    assert refs[..g] == GameRefs(date, games[..g]);
  }

  /** One more week adds the entries of that week's games. */
  lemma WeeksStep(gameFilter: Option<int>, payloads: map<int, Payload>, weeks: seq<Week>, w: nat)
    requires PayloadsWellFormed(payloads)
    requires w < |weeks|
    ensures Entries(gameFilter, payloads, WeeksRefs(weeks[..w + 1]))
            == Entries(gameFilter, payloads, WeeksRefs(weeks[..w])) + Entries(gameFilter, payloads, GameRefs(weeks[w].date, weeks[w].games))
  {
    assert weeks[..w + 1][..w] == weeks[..w];
    EntriesAppend(gameFilter, payloads, WeeksRefs(weeks[..w]), GameRefs(weeks[w].date, weeks[w].games));
  }

  /** One more visited day adds the entries of the games its schedule lists. */
  lemma DaysStep(gameFilter: Option<int>, schedules: map<Day, Schedule>, payloads: map<int, Payload>, days: seq<Day>, day: Day)
    requires PayloadsWellFormed(payloads)
    ensures Entries(gameFilter, payloads, Walk(schedules, days + [day]))
            == Entries(gameFilter, payloads, Walk(schedules, days)) + Entries(gameFilter, payloads, DayRefs(schedules, day))
  {
    assert (days + [day])[..|days|] == days;
    EntriesAppend(gameFilter, payloads, Walk(schedules, days), DayRefs(schedules, day));
  }

  /** Accumulating two runs of listed games one after the other is accumulating their concatenation. */
  lemma {:induction false} EntriesAppend(gameFilter: Option<int>, payloads: map<int, Payload>, a: seq<GameRef>, b: seq<GameRef>)
    requires PayloadsWellFormed(payloads)
    ensures Entries(gameFilter, payloads, a + b) == Entries(gameFilter, payloads, a) + Entries(gameFilter, payloads, b)
  {
    if b == [] {
      assert a + b == a;
    } else {
      var init, last := b[..|b| - 1], b[|b| - 1];
      assert (a + b)[..|a + b| - 1] == a + init;
      assert (a + b)[|a + b| - 1] == last;
      var ea, ei, el := Entries(gameFilter, payloads, a), Entries(gameFilter, payloads, init), RefEntries(gameFilter, payloads, last);
      assert Entries(gameFilter, payloads, a + b) == Entries(gameFilter, payloads, a + init) + el;
      EntriesAppend(gameFilter, payloads, a, init);
      AppendAssoc(ea, ei, el);
    }
  }

  /** The reported total is the sum of the play counts of the processed game occurrences. */
  lemma {:induction false} EntriesCount(gameFilter: Option<int>, payloads: map<int, Payload>, refs: seq<GameRef>)
    requires PayloadsWellFormed(payloads)
    ensures |Entries(gameFilter, payloads, refs)| == PlayTotal(gameFilter, payloads, refs)
  {
    if refs != [] {
      EntriesCount(gameFilter, payloads, refs[..|refs| - 1]);
    }
  }

  /** With a game filter set, every entry belongs to the filtered game, in its `_id` and in its document. */
  lemma {:induction false} FilteredEntries(g: int, payloads: map<int, Payload>, refs: seq<GameRef>)
    requires PayloadsWellFormed(payloads)
    ensures forall e | e in Entries(Some(g), payloads, refs) :: e.id.gameId == g && e.source.game.id == g
  {
    if refs != [] {
      var last := refs[|refs| - 1];
      FilteredEntries(g, payloads, refs[..|refs| - 1]);
      var added := RefEntries(Some(g), payloads, last);
      forall e | e in added ensures e.id.gameId == g && e.source.game.id == g {
        var payload := payloads[last.id];
        var i :| 0 <= i < |added| && added[i] == e;
        PlaysEntriesAt(last, payload, payload.plays, i);
        EntryFields(last.id, last.date, payload, payload.plays[i]);
        DocumentFields(last.id, last.date, payload, payload.plays[i]);
      }
    }
  }

  /**
   * A listed game that the filter rejects or whose play-by-play is not
   * served contributes nothing: the games around it yield exactly what they
   * would yield without it, and the count is theirs alone.
   */
  lemma SkippedGame(gameFilter: Option<int>, payloads: map<int, Payload>, a: seq<GameRef>, r: GameRef, b: seq<GameRef>)
    requires PayloadsWellFormed(payloads)
    requires !Selected(gameFilter, r.id) || r.id !in payloads
    ensures Entries(gameFilter, payloads, a + [r] + b) == Entries(gameFilter, payloads, a) + Entries(gameFilter, payloads, b)
    ensures PlayTotal(gameFilter, payloads, a + [r] + b) == PlayTotal(gameFilter, payloads, a) + PlayTotal(gameFilter, payloads, b)
  {
    assert Entries(gameFilter, payloads, a + [r]) == Entries(gameFilter, payloads, a) by {
      assert [r][..0] == [];
      assert Entries(gameFilter, payloads, [r]) == [];
      EntriesAppend(gameFilter, payloads, a, [r]);
    }
    EntriesAppend(gameFilter, payloads, a + [r], b);
    EntriesCount(gameFilter, payloads, a + [r] + b);
    EntriesCount(gameFilter, payloads, a);
    EntriesCount(gameFilter, payloads, b);
  }

  /** Walking two runs of days one after the other walks their concatenation. */
  lemma {:induction false} WalkAppend(schedules: map<Day, Schedule>, a: seq<Day>, b: seq<Day>)
    ensures Walk(schedules, a + b) == Walk(schedules, a) + Walk(schedules, b)
  {
    if b == [] {
      assert a + b == a;
    } else {
      var init := b[..|b| - 1];
      assert (a + b)[..|a + b| - 1] == a + init;
      WalkAppend(schedules, a, init);
      AppendAssoc(Walk(schedules, a), Walk(schedules, init), DayRefs(schedules, b[|b| - 1]));
    }
  }

  /** A day whose schedule is not served is skipped: the walk goes on with the following days. */
  lemma SkippedDay(schedules: map<Day, Schedule>, a: seq<Day>, d: Day, b: seq<Day>)
    requires d !in schedules
    ensures Walk(schedules, a + [d] + b) == Walk(schedules, a) + Walk(schedules, b)
  {
    assert Walk(schedules, a + [d]) == Walk(schedules, a) by {
      assert [d][..0] == [];
      assert Walk(schedules, [d]) == [];
      WalkAppend(schedules, a, [d]);
    }
    WalkAppend(schedules, a + [d], b);
  }

  /**
   * A game processed on two cursor days (its week is listed by the
   * schedules of several days) is counted twice, yet the index after the
   * bulk load is the one obtained by keeping only its later occurrence.
   */
  lemma RepeatedGame(gameFilter: Option<int>, payloads: map<int, Payload>, index: BulkIndex.Index,
                     x: seq<GameRef>, r: GameRef, y: seq<GameRef>)
    requires PayloadsWellFormed(payloads)
    ensures BulkIndex.Upsert(index, Entries(gameFilter, payloads, x + [r] + y + [r]))
            == BulkIndex.Upsert(index, Entries(gameFilter, payloads, x + y + [r]))
    ensures PlayTotal(gameFilter, payloads, x + [r] + y + [r])
            == PlayTotal(gameFilter, payloads, x + y + [r]) + |RefEntries(gameFilter, payloads, r)|
  {
    var ex, er, ey := Entries(gameFilter, payloads, x), Entries(gameFilter, payloads, [r]), Entries(gameFilter, payloads, y);
    EntriesAppend(gameFilter, payloads, x + [r] + y, [r]);
    EntriesAppend(gameFilter, payloads, x + [r], y);
    EntriesAppend(gameFilter, payloads, x, [r]);
    EntriesAppend(gameFilter, payloads, x + y, [r]);
    EntriesAppend(gameFilter, payloads, x, y);
    BulkIndex.RepeatCollapses(index, ex, er, ey);
    assert [r][..0] == [];
    EntriesCount(gameFilter, payloads, x + [r] + y + [r]);
    EntriesCount(gameFilter, payloads, x + y + [r]);
  }

  /**
   * A one-day run over a schedule listing a single game whose play-by-play
   * holds a single play by the home team, 30 seconds into period 1: exactly
   * one entry, carrying the play's period and clock, the home team's name and
   * the game id, and a reported total of 1.
   */
  lemma OneGameOneDay(seasonStart: Day, homeId: int, home: string, awayId: int, away: string, venue: string)
    ensures var gameId := 2023020500;
            var play := RawPlay(Some(8), 1, "00:30", Some("faceoff"), Some(homeId));
            var payloads := map[gameId := Payload([play], TeamRef(Some(homeId), Some(home)), TeamRef(Some(awayId), Some(away)), Some(venue))];
            var schedules := map[seasonStart := Schedule([Week(seasonStart, [gameId])])];
            var refs := Walk(schedules, DayRange(seasonStart, DayCount(Some(1))));
            var entries := Entries(None, payloads, refs);
            && PayloadsWellFormed(payloads)
            && |entries| == 1 == PlayTotal(None, payloads, refs)
            && entries[0].id == DocKey(gameId, seasonStart * SecondsPerDay + 30)
            && entries[0].source.period == 1 && entries[0].source.time == "00:30"
            && entries[0].source.teamNick == home && entries[0].source.teamNickOpposing == away
            && entries[0].source.game.id == gameId && entries[0].source.game.location == venue
  {
    var gameId := 2023020500;
    var play := RawPlay(Some(8), 1, "00:30", Some("faceoff"), Some(homeId));
    var payload := Payload([play], TeamRef(Some(homeId), Some(home)), TeamRef(Some(awayId), Some(away)), Some(venue));
    var payloads := map[gameId := payload];
    var schedules := map[seasonStart := Schedule([Week(seasonStart, [gameId])])];
    var ref := GameRef(gameId, seasonStart);
    assert PlayWellFormed(play) by {
      assert "00:30"[3..] == "30";
    }
    var refs := Walk(schedules, DayRange(seasonStart, DayCount(Some(1))));
    assert refs == [ref] by {
      assert DayRange(seasonStart, DayCount(Some(1))) == [seasonStart];
      assert [seasonStart][..0] == [];
      assert [Week(seasonStart, [gameId])][..0] == [];
      assert [gameId][..0] == [];
      assert GameRefs(seasonStart, [gameId]) == [ref];
      assert WeeksRefs([Week(seasonStart, [gameId])]) == [ref];
      assert Walk(schedules, [seasonStart]) == [ref];
    }
    assert Entries(None, payloads, [ref]) == [MakeEntry(gameId, seasonStart, payload, play)] by {
      assert [ref][..0] == [];
      assert [play][..0] == [];
    }
    assert Clock.ElapsedSeconds(1, "00:30") == 30 by {
      assert "00:30"[3..] == "30";
      assert "00:30"[3..][..1] == "3";
    }
  }
}
