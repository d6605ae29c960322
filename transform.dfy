/**
 * The per-play transform: one raw play of a game's play-by-play payload
 * becomes one document for the `nhl` index, wrapped in a bulk "index"
 * operation whose `_id` is "{game id}:{timestamp}".
 */
module Transform {
  import opened Wrappers
  import Clock

  /** A calendar day, counted in days from a fixed origin. */
  type Day = int

  /** A point in time, counted in seconds from midnight of day 0. */
  type Instant = int

  const SecondsPerDay := 86400

  const TargetIndex := "nhl"
  const IndexOp := "index"
  const DefaultHomeName := "Home Team"
  const DefaultAwayName := "Away Team"
  const DefaultVenue := "Venue"

  /** `homeTeam` / `awayTeam` of a payload: the team id and `name.default`, either possibly absent. */
  datatype TeamRef = TeamRef(id: Option<int>, name: Option<string>)

  /** One element of a payload's `plays`. */
  datatype RawPlay = RawPlay(
    eventId: Option<int>,
    period: int,                    // periodDescriptor.number
    timeInPeriod: string,
    typeDescKey: Option<string>,
    eventOwnerTeamId: Option<int>   // details.eventOwnerTeamId
  )

  /** A game's play-by-play payload; an absent `plays` list is the empty list. */
  datatype Payload = Payload(plays: seq<RawPlay>, homeTeam: TeamRef, awayTeam: TeamRef, venue: Option<string>)

  /** The `game` sub-record embedded in every document of one game. */
  datatype GameInfo = GameInfo(id: int, homeTeam: string, awayTeam: string, date: Day, location: string)

  datatype PlayDoc = PlayDoc(
    timestamp: Instant,
    teamId: Option<int>,
    teamNick: string,
    teamNickOpposing: string,
    playId: Option<int>,
    period: int,
    time: string,
    description: Option<string>,
    game: GameInfo
  )

  /** The bulk `_id` "{game id}:{timestamp}", kept as its two components. */
  datatype DocKey = DocKey(gameId: int, timestamp: Instant)

  datatype BulkEntry = BulkEntry(opType: string, index: string, id: DocKey, source: PlayDoc)

  /** A play the transform can process without raising: its clock text can be read. */
  predicate PlayWellFormed(p: RawPlay) {
    Clock.WellFormed(p.timeInPeriod)
  }

  predicate PayloadWellFormed(payload: Payload) {
    forall i | 0 <= i < |payload.plays| :: PlayWellFormed(payload.plays[i])
  }

  function HomeName(payload: Payload): string {
    payload.homeTeam.name.GetOr(DefaultHomeName)
  }

  function AwayName(payload: Payload): string {
    payload.awayTeam.name.GetOr(DefaultAwayName)
  }

  function VenueName(payload: Payload): string {
    payload.venue.GetOr(DefaultVenue)
  }

  /**
   * The document for `play` of game `gameId` scheduled on `date`. What it
   * holds is stated by DocumentFields below.
   */
  function ToDocument(gameId: int, date: Day, payload: Payload, play: RawPlay): PlayDoc
    requires PlayWellFormed(play)
  {
    var home, away := HomeName(payload), AwayName(payload);
    // The owner is taken to be the home team exactly when the ids compare equal, absent values included.
    var ownerIsHome := play.eventOwnerTeamId == payload.homeTeam.id;
    PlayDoc(
      date * SecondsPerDay + Clock.ElapsedSeconds(play.period, play.timeInPeriod),
      play.eventOwnerTeamId,
      if ownerIsHome then home else away,
      if ownerIsHome then away else home,
      play.eventId,
      play.period,
      play.timeInPeriod,
      play.typeDescKey,
      GameInfo(gameId, home, away, date, VenueName(payload)))
  }

  /** The bulk operation for one play: an "index" into `nhl`, keyed by the game id and the document's timestamp. */
  function MakeEntry(gameId: int, date: Day, payload: Payload, play: RawPlay): BulkEntry
    requires PlayWellFormed(play)
  {
    var doc := ToDocument(gameId, date, payload, play);
    BulkEntry(IndexOp, TargetIndex, DocKey(gameId, doc.timestamp), doc)
  }

  /**
   * A document copies the play's own fields unchanged; its timestamp is the
   * game date plus the elapsed game time; its names come from the payload or
   * fall back to "Home Team", "Away Team" and "Venue"; the owner is the home
   * team exactly when the owner id equals the home id.
   */
  lemma DocumentFields(gameId: int, date: Day, payload: Payload, play: RawPlay)
    requires PlayWellFormed(play)
    ensures var d := ToDocument(gameId, date, payload, play);
      && d.playId == play.eventId && d.period == play.period && d.time == play.timeInPeriod
      && d.description == play.typeDescKey && d.teamId == play.eventOwnerTeamId
      && d.timestamp - date * SecondsPerDay
         == (Clock.Minutes(play.timeInPeriod) + (play.period - 1) * 20) * 60 + Clock.Seconds(play.timeInPeriod)
      && d.game.id == gameId && d.game.date == date
      && d.game.homeTeam == (if payload.homeTeam.name.Some? then payload.homeTeam.name.value else "Home Team")
      && d.game.awayTeam == (if payload.awayTeam.name.Some? then payload.awayTeam.name.value else "Away Team")
      && d.game.location == (if payload.venue.Some? then payload.venue.value else "Venue")
      && (play.eventOwnerTeamId == payload.homeTeam.id
          ==> d.teamNick == d.game.homeTeam && d.teamNickOpposing == d.game.awayTeam)
      && (play.eventOwnerTeamId != payload.homeTeam.id
          ==> d.teamNick == d.game.awayTeam && d.teamNickOpposing == d.game.homeTeam)
  {
  }

  /** Every bulk operation is an "index" into `nhl` whose `_id` is the document's game id and timestamp. */
  lemma EntryFields(gameId: int, date: Day, payload: Payload, play: RawPlay)
    requires PlayWellFormed(play)
    ensures var e := MakeEntry(gameId, date, payload, play);
      && e.opType == "index" && e.index == "nhl"
      && e.source == ToDocument(gameId, date, payload, play)
      && e.id == DocKey(e.source.game.id, e.source.timestamp)
  {
  }

  /** The owner and opposing names are always the home and away names in some order. */
  lemma AttributionIsPermutation(gameId: int, date: Day, payload: Payload, play: RawPlay)
    requires PlayWellFormed(play)
    ensures var d := ToDocument(gameId, date, payload, play);
            multiset{d.teamNick, d.teamNickOpposing} == multiset{HomeName(payload), AwayName(payload)}
  {
  }

  /**
   * Two plays of one game on one date get the same `_id` exactly when their
   * elapsed offsets agree; equal period and clock reading is one such case,
   * so the later of two such plays overwrites the earlier in the index.
   */
  lemma SameKeyIffSameOffset(gameId: int, date: Day, payload: Payload, p: RawPlay, q: RawPlay)
    requires PlayWellFormed(p) && PlayWellFormed(q)
    ensures MakeEntry(gameId, date, payload, p).id == MakeEntry(gameId, date, payload, q).id
            <==> Clock.ElapsedSeconds(p.period, p.timeInPeriod) == Clock.ElapsedSeconds(q.period, q.timeInPeriod)
  {
  }

  /**
   * For in-period clocks (under 20 minutes, under 60 seconds), two plays of
   * one game on one date collide on `_id` exactly when period, minutes and
   * seconds all agree.
   */
  lemma KeyCollisionIff(gameId: int, date: Day, payload: Payload, p: RawPlay, q: RawPlay)
    requires PlayWellFormed(p) && Clock.Minutes(p.timeInPeriod) < 20 && Clock.Seconds(p.timeInPeriod) < 60
    requires PlayWellFormed(q) && Clock.Minutes(q.timeInPeriod) < 20 && Clock.Seconds(q.timeInPeriod) < 60
    ensures MakeEntry(gameId, date, payload, p).id == MakeEntry(gameId, date, payload, q).id
            <==> p.period == q.period
                 && Clock.Minutes(p.timeInPeriod) == Clock.Minutes(q.timeInPeriod)
                 && Clock.Seconds(p.timeInPeriod) == Clock.Seconds(q.timeInPeriod)
  {
    SameKeyIffSameOffset(gameId, date, payload, p, q);
    Clock.ElapsedInjective(p.period, p.timeInPeriod, q.period, q.timeInPeriod);
  }

  /**
   * The end of one period and the start of the next share an offset: a play
   * at "20:00" of period n and a play at "00:00" of period n + 1 get the same
   * `_id`, so the later of the two in the batch replaces the earlier.
   */
  lemma PeriodBoundaryCollision(gameId: int, date: Day, payload: Payload, n: int, p: RawPlay, q: RawPlay)
    requires p.period == n && p.timeInPeriod == "20:00"
    requires q.period == n + 1 && q.timeInPeriod == "00:00"
    ensures PlayWellFormed(p) && PlayWellFormed(q)
    ensures MakeEntry(gameId, date, payload, p).id == MakeEntry(gameId, date, payload, q).id
  {
    assert "20:00"[3..] == "00";
    assert "00:00"[3..] == "00";
    Clock.TwoDigitsValue("00");
  }
}
