/**
 * The domain types of the backlog tracker (src/types/Game.ts): the closed status
 * and tier enumerations and the shape of a game record.
 */
module GameTypes {
  import opened Wrappers
  import opened JsText

  /** The eight progress states a game can be in. */
  datatype GameStatus = Platino | Completado | Pasado | Empezado | SinProbar | Abandonado | Probado | NoAplica

  /** The nine subjective tiers, best first. */
  datatype GameRanking = SPlus | S | A | B | C | D | E | F | G

  function StatusName(s: GameStatus): string {
    match s
    case Platino => "Platino"
    case Completado => "Completado"
    case Pasado => "Pasado"
    case Empezado => "Empezado"
    case SinProbar => "Sin probar"
    case Abandonado => "Abandonado"
    case Probado => "Probado"
    case NoAplica => "No aplica"
  }

  function RankingName(r: GameRanking): string {
    match r
    case SPlus => "S+"
    case S => "S"
    case A => "A"
    case B => "B"
    case C => "C"
    case D => "D"
    case E => "E"
    case F => "F"
    case G => "G"
  }

  /** Every status, in declaration order. */
  const AllStatuses: seq<GameStatus> := [Platino, Completado, Pasado, Empezado, SinProbar, Abandonado, Probado, NoAplica]

  /** Every tier, in declaration order (best first). */
  const AllRankings: seq<GameRanking> := [SPlus, S, A, B, C, D, E, F, G]

  /** The status names as the spreadsheet import lists them. */
  const StatusValues: seq<string> := ["Platino", "Completado", "Pasado", "Empezado", "Sin probar", "Abandonado", "Probado", "No aplica"]

  /** The tier names in tier order: used both to sort the list and to validate imported tiers. */
  const RankingOrder: seq<string> := ["S+", "S", "A", "B", "C", "D", "E", "F", "G"]

  /** The position of a tier in the tier order (0 is best). */
  function Tier(r: GameRanking): (i: nat)
    ensures i < |AllRankings| && AllRankings[i] == r
  {
    match r
    case SPlus => 0
    case S => 1
    case A => 2
    case B => 3
    case C => 4
    case D => 5
    case E => 6
    case F => 7
    case G => 8
  }

  /** The status a name stands for, if it is one of the eight names. */
  function ParseStatus(t: string): (r: Option<GameStatus>)
    ensures r.Some? <==> t in StatusValues
    ensures r.Some? ==> StatusName(r.value) == t
  {
    if t == "Platino" then Some(Platino)
    else if t == "Completado" then Some(Completado)
    else if t == "Pasado" then Some(Pasado)
    else if t == "Empezado" then Some(Empezado)
    else if t == "Sin probar" then Some(SinProbar)
    else if t == "Abandonado" then Some(Abandonado)
    else if t == "Probado" then Some(Probado)
    else if t == "No aplica" then Some(NoAplica)
    else None
  }

  /** The tier a name stands for, if it is one of the nine names. */
  function ParseRanking(t: string): (r: Option<GameRanking>)
    ensures r.Some? <==> t in RankingOrder
    ensures r.Some? ==> RankingName(r.value) == t
  {
    if t == "S+" then Some(SPlus)
    else if t == "S" then Some(S)
    else if t == "A" then Some(A)
    else if t == "B" then Some(B)
    else if t == "C" then Some(C)
    else if t == "D" then Some(D)
    else if t == "E" then Some(E)
    else if t == "F" then Some(F)
    else if t == "G" then Some(G)
    else None
  }

  /** Reading a status's name back gives the status. */
  lemma StatusNameRoundTrip(s: GameStatus)
    ensures StatusName(s) in StatusValues
    ensures ParseStatus(StatusName(s)) == Some(s)
  {
    match s
    case Platino =>
    case Completado =>
    case Pasado =>
    case Empezado =>
    case SinProbar =>
    case Abandonado =>
    case Probado =>
    case NoAplica =>
  }

  /** Every status is listed. */
  lemma StatusListed(s: GameStatus)
    ensures s in AllStatuses
  {
    match s
    case Platino => assert AllStatuses[0] == s;
    case Completado => assert AllStatuses[1] == s;
    case Pasado => assert AllStatuses[2] == s;
    case Empezado => assert AllStatuses[3] == s;
    case SinProbar => assert AllStatuses[4] == s;
    case Abandonado => assert AllStatuses[5] == s;
    case Probado => assert AllStatuses[6] == s;
    case NoAplica => assert AllStatuses[7] == s;
  }

  /** The status type is a closed set: the eight names are exactly the statuses, one name each. */
  lemma StatusSetClosed()
    ensures forall s: GameStatus :: s in AllStatuses && StatusName(s) in StatusValues
    ensures forall s: GameStatus, t: GameStatus :: StatusName(s) == StatusName(t) ==> s == t
    ensures forall t :: t in StatusValues ==> exists s: GameStatus :: StatusName(s) == t
  {
    forall s: GameStatus ensures s in AllStatuses && StatusName(s) in StatusValues {
      StatusListed(s);
      StatusNameRoundTrip(s);
    }
    forall s: GameStatus, t: GameStatus | StatusName(s) == StatusName(t) ensures s == t {
      StatusNameRoundTrip(s);
      StatusNameRoundTrip(t);
    }
    forall t | t in StatusValues ensures exists s: GameStatus :: StatusName(s) == t {
      assert StatusName(ParseStatus(t).value) == t;
    }
  }

  /** Reading a tier's name back gives the tier. */
  lemma RankingNameRoundTrip(r: GameRanking)
    ensures RankingName(r) in RankingOrder
    ensures ParseRanking(RankingName(r)) == Some(r)
  {
    match r
    case SPlus =>
    case S =>
    case A =>
    case B =>
    case C =>
    case D =>
    case E =>
    case F =>
    case G =>
  }

  /** The entry at a position of the tier order names the tier of that position. */
  lemma RankingOrderEntry(i: int)
    requires 0 <= i < |RankingOrder|
    ensures ParseRanking(RankingOrder[i]) == Some(AllRankings[i])
    ensures Tier(AllRankings[i]) == i
  {
    if i == 0 {
    } else if i == 1 {
    } else if i == 2 {
    } else if i == 3 {
    } else if i == 4 {
    } else if i == 5 {
    } else if i == 6 {
    } else if i == 7 {
    } else {
    }
  }

  /** A tier's name sits at its tier position in the tier order, and nowhere earlier. */
  lemma TierIsIndex(r: GameRanking)
    ensures IndexOf(RankingOrder, RankingName(r)) == Tier(r)
  {
    RankingNameRoundTrip(r);
    var i := IndexOf(RankingOrder, RankingName(r));
    RankingOrderEntry(i);
    assert AllRankings[i] == r;
  }

  /** The tier type is a closed set of nine names, and the tier order is the declaration order. */
  lemma RankingSetClosed()
    ensures forall r: GameRanking :: r in AllRankings && RankingName(r) in RankingOrder
    ensures forall r: GameRanking, q: GameRanking :: RankingName(r) == RankingName(q) ==> r == q
    ensures forall r: GameRanking :: IndexOf(RankingOrder, RankingName(r)) == Tier(r)
  {
    forall r: GameRanking ensures r in AllRankings && RankingName(r) in RankingOrder {
      RankingNameRoundTrip(r);
    }
    forall r: GameRanking, q: GameRanking | RankingName(r) == RankingName(q) ensures r == q {
      RankingNameRoundTrip(r);
      RankingNameRoundTrip(q);
    }
    forall r: GameRanking ensures IndexOf(RankingOrder, RankingName(r)) == Tier(r) {
      TierIsIndex(r);
    }
  }

  /** A JavaScript number as far as the tracker handles it: never computed with, only stored. */
  datatype Number = Finite(value: real) | NaN

  /** An hours field: absent from the record, explicitly null, or a number. */
  datatype Hours = Absent | Null | Value(n: Number)

  /** A game record; `status` and `ranking` hold whatever string was stored or entered. */
  datatype Game = Game(
    id: string,
    title: string,
    platform: string,
    status: string,
    ranking: string,
    comment: string,
    createdAt: string,
    releaseDate: Option<string>,
    publisher: Option<string>,
    genres: Option<string>,
    firstPlayedAt: Option<string>,
    startDate: Option<string>,
    endDate: Option<string>,
    lastSessionHours: Hours,
    yearsPlayed: Option<string>,
    totalHours: Hours)

  /** A record without `id` and `createdAt`; an optional field that is None (or Absent) is not present. */
  datatype GameInput = GameInput(
    title: string,
    platform: string,
    status: string,
    ranking: string,
    comment: string,
    releaseDate: Option<string>,
    publisher: Option<string>,
    genres: Option<string>,
    firstPlayedAt: Option<string>,
    startDate: Option<string>,
    endDate: Option<string>,
    lastSessionHours: Hours,
    yearsPlayed: Option<string>,
    totalHours: Hours)

  /** The input part of a record. */
  function InputOf(g: Game): GameInput {
    GameInput(g.title, g.platform, g.status, g.ranking, g.comment, g.releaseDate, g.publisher,
              g.genres, g.firstPlayedAt, g.startDate, g.endDate, g.lastSessionHours, g.yearsPlayed,
              g.totalHours)
  }

  /** `{ ...input, id, createdAt }`: a record made of the input plus the fresh id and timestamp. */
  function NewGame(input: GameInput, id: string, createdAt: string): (g: Game)
    ensures g.id == id && g.createdAt == createdAt
    ensures InputOf(g) == input
  {
    Game(id, input.title, input.platform, input.status, input.ranking, input.comment, createdAt,
         input.releaseDate, input.publisher, input.genres, input.firstPlayedAt, input.startDate,
         input.endDate, input.lastSessionHours, input.yearsPlayed, input.totalHours)
  }

  function OrKeep(given: Option<string>, kept: Option<string>): Option<string> {
    if given.Some? then given else kept
  }

  function HoursOrKeep(given: Hours, kept: Hours): Hours {
    if given.Absent? then kept else given
  }

  /** `{ ...game, ...input }`: the input's fields replace the record's, fields it omits are kept. */
  function Merge(g: Game, input: GameInput): (r: Game)
    ensures r.id == g.id && r.createdAt == g.createdAt
    ensures r.title == input.title && r.platform == input.platform && r.comment == input.comment
    ensures r.status == input.status && r.ranking == input.ranking
    ensures r.releaseDate == (if input.releaseDate.Some? then input.releaseDate else g.releaseDate)
    ensures r.publisher == (if input.publisher.Some? then input.publisher else g.publisher)
    ensures r.genres == (if input.genres.Some? then input.genres else g.genres)
    ensures r.firstPlayedAt == (if input.firstPlayedAt.Some? then input.firstPlayedAt else g.firstPlayedAt)
    ensures r.startDate == (if input.startDate.Some? then input.startDate else g.startDate)
    ensures r.endDate == (if input.endDate.Some? then input.endDate else g.endDate)
    ensures r.yearsPlayed == (if input.yearsPlayed.Some? then input.yearsPlayed else g.yearsPlayed)
    ensures r.lastSessionHours == (if input.lastSessionHours.Absent? then g.lastSessionHours else input.lastSessionHours)
    ensures r.totalHours == (if input.totalHours.Absent? then g.totalHours else input.totalHours)
  {
    g.(title := input.title, platform := input.platform, status := input.status,
       ranking := input.ranking, comment := input.comment,
       releaseDate := OrKeep(input.releaseDate, g.releaseDate),
       publisher := OrKeep(input.publisher, g.publisher),
       genres := OrKeep(input.genres, g.genres),
       firstPlayedAt := OrKeep(input.firstPlayedAt, g.firstPlayedAt),
       startDate := OrKeep(input.startDate, g.startDate),
       endDate := OrKeep(input.endDate, g.endDate),
       lastSessionHours := HoursOrKeep(input.lastSessionHours, g.lastSessionHours),
       yearsPlayed := OrKeep(input.yearsPlayed, g.yearsPlayed),
       totalHours := HoursOrKeep(input.totalHours, g.totalHours))
  }

  /** An input that carries every optional field (as the form's always does). */
  predicate Complete(input: GameInput) {
    && input.releaseDate.Some? && input.publisher.Some? && input.genres.Some?
    && input.firstPlayedAt.Some? && input.startDate.Some? && input.endDate.Some?
    && !input.lastSessionHours.Absent? && input.yearsPlayed.Some? && !input.totalHours.Absent?
  }

  /** Merging a complete input replaces everything but the id and the timestamp. */
  lemma MergeComplete(g: Game, input: GameInput)
    requires Complete(input)
    ensures Merge(g, input) == NewGame(input, g.id, g.createdAt)
  {
  }

  /** Merging is idempotent, and merging a record's own fields changes nothing. */
  lemma MergeIdempotent(g: Game, input: GameInput)
    ensures Merge(Merge(g, input), input) == Merge(g, input)
    ensures Merge(g, InputOf(g)) == g
  {
  }
}
