/**
 * The record store (src/hooks/useGameStorage.ts): the list of games, loaded once
 * from a storage slot, changed by add, update and delete, and mirrored back to
 * the slot after every change.
 */
module GameStorage {
  import opened Wrappers
  import opened GameTypes

  /** The name of the storage slot. */
  const StorageKey: string := "gametracker_games"

  /** The tier given on load to an entry whose ranking is null or absent. */
  const DefaultRanking: string := "F"

  /**
   * A persisted record object after parsing: `id`, `title` and `createdAt` are
   * None when the key is missing; `ranking` is None when null or missing. The
   * other properties are assumed to hold values of their declared types.
   */
  datatype StoredGame = StoredGame(
    id: Option<string>,
    title: Option<string>,
    platform: string,
    status: string,
    ranking: Option<string>,
    comment: string,
    createdAt: Option<string>,
    releaseDate: Option<string>,
    publisher: Option<string>,
    genres: Option<string>,
    firstPlayedAt: Option<string>,
    startDate: Option<string>,
    endDate: Option<string>,
    lastSessionHours: Hours,
    yearsPlayed: Option<string>,
    totalHours: Hours)

  /** One element of the persisted array: a falsy value, another non-object value, or an object. */
  datatype StoredItem = Falsy | NonObject | Object(fields: StoredGame)

  /**
   * What reading and parsing the slot yields: nothing (null or empty text), text
   * that does not parse, a parsed value that is not an array, or an array.
   */
  datatype StoredValue = Missing | Unparseable | NotArray | Entries(items: seq<StoredItem>)

  /** The filter of `loadGames`: a truthy object with `id`, `title` and `createdAt` keys. */
  predicate Keeps(item: StoredItem) {
    item.Object? && item.fields.id.Some? && item.fields.title.Some? && item.fields.createdAt.Some?
  }

  /** `JSON.stringify` of an hours field: NaN has no JSON form and is written as null. */
  function JsonHours(h: Hours): (r: Hours)
    ensures r != Value(NaN)
    ensures h != Value(NaN) ==> r == h
    ensures h == Value(NaN) ==> r == Null
  {
    if h == Value(NaN) then Null else h
  }

  /** A record whose hours survive JSON unchanged. */
  predicate NaNFree(g: Game) {
    g.lastSessionHours != Value(NaN) && g.totalHours != Value(NaN)
  }

  /** `JSON.stringify` of one record, as it reads back from the slot. */
  function Serialize(g: Game): StoredGame {
    StoredGame(Some(g.id), Some(g.title), g.platform, g.status, Some(g.ranking), g.comment,
               Some(g.createdAt), g.releaseDate, g.publisher, g.genres, g.firstPlayedAt,
               g.startDate, g.endDate, JsonHours(g.lastSessionHours), g.yearsPlayed,
               JsonHours(g.totalHours))
  }

  /** A record as a JSON round trip gives it back: NaN hours become null, all else is kept. */
  function Reloaded(g: Game): Game {
    g.(lastSessionHours := JsonHours(g.lastSessionHours), totalHours := JsonHours(g.totalHours))
  }

  /** The map of `loadGames`: the entry with a missing ranking defaulted; the status is not touched. */
  function Restore(s: StoredGame): (g: Game)
    requires s.id.Some? && s.title.Some? && s.createdAt.Some?
    ensures Serialize(g) == s.(ranking := Some(s.ranking.GetOr(DefaultRanking)),
                               lastSessionHours := JsonHours(s.lastSessionHours),
                               totalHours := JsonHours(s.totalHours))
  {
    Game(s.id.value, s.title.value, s.platform, s.status, s.ranking.GetOr(DefaultRanking),
         s.comment, s.createdAt.value, s.releaseDate, s.publisher, s.genres, s.firstPlayedAt,
         s.startDate, s.endDate, s.lastSessionHours, s.yearsPlayed, s.totalHours)
  }

  /**
   * Restoring a serialised record gives the record back, except that NaN hours,
   * which JSON writes as null, come back as null.
   */
  lemma RestoreSerialize(g: Game)
    ensures Restore(Serialize(g)) == Reloaded(g)
    ensures NaNFree(g) ==> Restore(Serialize(g)) == g
    ensures g.lastSessionHours == Value(NaN) ==> Restore(Serialize(g)).lastSessionHours == Null
    ensures g.totalHours == Value(NaN) ==> Restore(Serialize(g)).totalHours == Null
  {
  }

  /** What one entry contributes to the loaded list. */
  function LoadItem(item: StoredItem): seq<Game> {
    if Keeps(item) then [Restore(item.fields)] else []
  }

  /** The kept entries, restored, in their original order. */
  function LoadItems(items: seq<StoredItem>): (r: seq<Game>)
    ensures |r| <= |items|
    ensures forall g :: g in r ==> exists i :: 0 <= i < |items| && Keeps(items[i]) && Restore(items[i].fields) == g
    ensures forall i :: 0 <= i < |items| && Keeps(items[i]) ==> Restore(items[i].fields) in r
  {
    if items == [] then []
    else
      var rest := LoadItems(items[1..]);
      assert forall i :: 1 <= i < |items| ==> items[i] == items[1..][i - 1];
      LoadItem(items[0]) + rest
  }

  /** `loadGames`: [] for a missing, unparseable or non-array value, otherwise the kept entries. */
  function LoadGames(stored: StoredValue): (r: seq<Game>)
    ensures !stored.Entries? ==> r == []
    ensures stored.Entries? ==> r == LoadItems(stored.items)
  {
    match stored
    case Entries(items) => LoadItems(items)
    case _ => []
  }

  /** Loading distributes over concatenation: entries are filtered one by one, in order. */
  lemma {:induction false} LoadItemsConcat(a: seq<StoredItem>, b: seq<StoredItem>)
    ensures LoadItems(a + b) == LoadItems(a) + LoadItems(b)
  {
    if a != [] {
      assert (a + b)[0] == a[0];
      assert (a + b)[1..] == a[1..] + b;
      LoadItemsConcat(a[1..], b);
      calc {
        LoadItems(a + b);
        LoadItem(a[0]) + LoadItems(a[1..] + b);
        LoadItem(a[0]) + (LoadItems(a[1..]) + LoadItems(b));
      }
    } else {
      assert a + b == b;
    }
  }

  /** A single entry survives loading exactly when it passes the filter, and then with its ranking defaulted. */
  lemma LoadSingle(item: StoredItem)
    ensures Keeps(item) ==> LoadItems([item]) == [Restore(item.fields)]
    ensures !Keeps(item) ==> LoadItems([item]) == []
    ensures Keeps(item) ==> Restore(item.fields).ranking == item.fields.ranking.GetOr(DefaultRanking)
    ensures Keeps(item) ==> Restore(item.fields).status == item.fields.status
  {
  }

  /** The array the persist effect writes, one object per record. */
  function StoreItems(games: seq<Game>): (items: seq<StoredItem>)
    ensures |items| == |games|
    ensures forall i :: 0 <= i < |games| ==> items[i] == Object(Serialize(games[i]))
  {
    if games == [] then [] else [Object(Serialize(games[0]))] + StoreItems(games[1..])
  }

  /** What the persist effect writes: the whole list. */
  function Persist(games: seq<Game>): StoredValue {
    Entries(StoreItems(games))
  }

  /** Every record of a list as a JSON round trip gives it back. */
  function ReloadAll(games: seq<Game>): (r: seq<Game>)
    ensures |r| == |games|
    ensures forall i :: 0 <= i < |games| ==> r[i] == Reloaded(games[i])
  {
    if games == [] then [] else [Reloaded(games[0])] + ReloadAll(games[1..])
  }

  /** Reloading what was persisted gives back the same list, with NaN hours turned to null. */
  lemma {:induction false} LoadPersist(games: seq<Game>)
    ensures LoadGames(Persist(games)) == ReloadAll(games)
  {
    if games != [] {
      var items := StoreItems(games);
      assert items[1..] == StoreItems(games[1..]);
      RestoreSerialize(games[0]);
      LoadPersist(games[1..]);
    }
  }

  /** A list without NaN hours reloads exactly as it was persisted. */
  lemma {:induction false} LoadPersistNaNFree(games: seq<Game>)
    requires forall i :: 0 <= i < |games| ==> NaNFree(games[i])
    ensures LoadGames(Persist(games)) == games
  {
    LoadPersist(games);
    var r := ReloadAll(games);
    forall i | 0 <= i < |games| ensures r[i] == games[i] {
      RestoreSerialize(games[i]);
    }
  }

  /** A record with NaN hours reloads with null in their place. */
  lemma NaNHoursReloadNull(games: seq<Game>, i: nat)
    requires i < |games|
    ensures |LoadGames(Persist(games))| == |games|
    ensures games[i].lastSessionHours == Value(NaN) ==> LoadGames(Persist(games))[i].lastSessionHours == Null
    ensures games[i].totalHours == Value(NaN) ==> LoadGames(Persist(games))[i].totalHours == Null
  {
    LoadPersist(games);
  }

  /** `updateGame`'s callback for one record: merged with the input when it has the id, otherwise itself. */
  function UpdateOne(g: Game, id: string, input: GameInput): (r: Game)
    ensures r.id == g.id && r.createdAt == g.createdAt
  {
    if g.id == id then Merge(g, input) else g
  }

  /** `updateGame`'s map: matching records get the input merged in, others are untouched. */
  function UpdateAll(games: seq<Game>, id: string, input: GameInput): (r: seq<Game>)
    ensures |r| == |games|
    ensures forall i :: 0 <= i < |games| ==> r[i] == UpdateOne(games[i], id, input)
    ensures forall i :: 0 <= i < |games| ==> r[i].id == games[i].id && r[i].createdAt == games[i].createdAt
    ensures forall i :: 0 <= i < |games| && games[i].id != id ==> r[i] == games[i]
    ensures forall i :: 0 <= i < |games| && games[i].id == id ==> r[i] == Merge(games[i], input)
  {
    if games == [] then []
    else
      var rest := UpdateAll(games[1..], id, input);
      assert forall i :: 1 <= i < |games| ==> games[i] == games[1..][i - 1];
      [UpdateOne(games[0], id, input)] + rest
  }

  /** `deleteGame`'s filter: every record with the id is dropped, the rest keep their order. */
  function RemoveId(games: seq<Game>, id: string): (r: seq<Game>)
    ensures |r| <= |games|
    ensures forall g :: g in r <==> g in games && g.id != id
  {
    if games == [] then []
    else
      var rest := RemoveId(games[1..], id);
      if games[0].id == id then rest else [games[0]] + rest
  }

  predicate HasId(games: seq<Game>, id: string) {
    exists g :: g in games && g.id == id
  }

  /** Updating or deleting an id that is not present changes nothing. */
  lemma {:induction false} UnknownIdNoOp(games: seq<Game>, id: string, input: GameInput)
    requires !HasId(games, id)
    ensures UpdateAll(games, id, input) == games
    ensures RemoveId(games, id) == games
  {
    if games != [] {
      assert forall g :: g in games[1..] ==> g in games;
      UnknownIdNoOp(games[1..], id, input);
    }
  }

  /** Deleting keeps order: it distributes over concatenation. */
  lemma {:induction false} RemoveIdConcat(a: seq<Game>, b: seq<Game>, id: string)
    ensures RemoveId(a + b, id) == RemoveId(a, id) + RemoveId(b, id)
  {
    if a != [] {
      assert (a + b)[0] == a[0];
      assert (a + b)[1..] == a[1..] + b;
      RemoveIdConcat(a[1..], b, id);
    } else {
      assert a + b == b;
    }
  }

  /** Updating and deleting are idempotent. */
  lemma {:induction false} UpdateRemoveIdempotent(games: seq<Game>, id: string, input: GameInput)
    ensures UpdateAll(UpdateAll(games, id, input), id, input) == UpdateAll(games, id, input)
    ensures RemoveId(RemoveId(games, id), id) == RemoveId(games, id)
  {
    if games != [] {
      MergeIdempotent(games[0], input);
      UpdateRemoveIdempotent(games[1..], id, input);
      assert UpdateAll(games, id, input)[1..] == UpdateAll(games[1..], id, input);
    }
  }

  /** No two records share an id. */
  predicate DistinctIds(games: seq<Game>) {
    forall i, j :: 0 <= i < j < |games| ==> games[i].id != games[j].id
  }

  /** Adding a record whose id is fresh keeps ids distinct. */
  lemma AddKeepsDistinct(games: seq<Game>, input: GameInput, id: string, createdAt: string)
    requires DistinctIds(games) && !HasId(games, id)
    ensures DistinctIds(games + [NewGame(input, id, createdAt)])
  {
    var r := games + [NewGame(input, id, createdAt)];
    forall i, j | 0 <= i < j < |r| ensures r[i].id != r[j].id {
      if j == |games| {
        assert r[i] in games;
      }
    }
  }

  /** Updating keeps ids distinct: it never changes an id. */
  lemma UpdateKeepsDistinct(games: seq<Game>, id: string, input: GameInput)
    requires DistinctIds(games)
    ensures DistinctIds(UpdateAll(games, id, input))
  {
  }

  /** Deleting keeps ids distinct, and afterwards no record carries the deleted id. */
  lemma {:induction false} RemoveKeepsDistinct(games: seq<Game>, id: string)
    requires DistinctIds(games)
    ensures DistinctIds(RemoveId(games, id))
    ensures !HasId(RemoveId(games, id), id)
  {
    if games != [] {
      RemoveKeepsDistinct(games[1..], id);
      var rest := RemoveId(games[1..], id);
      forall g | g in rest ensures g.id != games[0].id {
        assert g in games[1..];
      }
      if games[0].id != id {
        ConsDistinct(games[0], rest);
      }
    }
  }

  lemma ConsDistinct(g: Game, rest: seq<Game>)
    requires DistinctIds(rest) && forall h | h in rest :: h.id != g.id
    ensures DistinctIds([g] + rest)
  {
    var r := [g] + rest;
    forall i, j | 0 <= i < j < |r| ensures r[i].id != r[j].id {
      assert r[j] == rest[j - 1];
      if i > 0 {
        assert r[i] == rest[i - 1];
      }
    }
  }

  /** The store: the current list and the storage slot it is mirrored to. */
  class GameStore {
    var games: seq<Game>
    var persisted: StoredValue

    /** The slot always holds the serialisation of the whole current list. */
    ghost predicate Valid()
      reads this
    {
      persisted == Persist(games)
    }

    /** Loads the list from the slot, then the persist effect writes it back. */
    constructor (stored: StoredValue)
      ensures Valid()
      ensures games == LoadGames(stored)
    {
      games := LoadGames(stored);
      persisted := Persist(LoadGames(stored));
    }

    /** The effect that runs after every change of the list. */
    method SaveToStorage()
      modifies this`persisted
      ensures Valid()
    {
      persisted := Persist(games);
    }

    /** `addGame`: appends the input with a fresh id and the current time. */
    method AddGame(input: GameInput, freshId: string, now: string)
      modifies this
      ensures Valid()
      ensures games == old(games) + [NewGame(input, freshId, now)]
    {
      games := games + [NewGame(input, freshId, now)];
      SaveToStorage();
    }

    /** `updateGame`: merges the input into every record with the id. */
    method UpdateGame(id: string, input: GameInput)
      modifies this
      ensures Valid()
      ensures games == UpdateAll(old(games), id, input)
    {
      games := UpdateAll(games, id, input);
      SaveToStorage();
    }

    /** `deleteGame`: removes every record with the id. */
    method DeleteGame(id: string)
      modifies this
      ensures Valid()
      ensures games == RemoveId(old(games), id)
    {
      games := RemoveId(games, id);
      SaveToStorage();
    }
  }
}
