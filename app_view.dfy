/**
 * The list view of the main screen (src/App.tsx): search, status and tier
 * filters, a stable sort by tier or by title, pages of nine, and the handlers
 * that dispatch form submissions and the delete-all button.
 */
module AppView {
  import opened Wrappers
  import opened JsText
  import opened GameTypes
  import opened Sorting
  import opened GameStorage

  const ItemsPerPage: nat := 9

  /** The filter value that keeps every status or every tier. */
  const AllValues: string := "todos"

  /** The sort option that orders by tier; every other value orders by title. */
  const SortByRanking: string := "ranking"

  /** The initial sort option. */
  const SortByTitle: string := "titulo"

  /** One stage of the filter pipeline; `lower` stands for `toLowerCase`. */
  datatype Filter =
    | SearchFilter(search: string, lower: string -> string)
    | StatusFilter(status: string)
    | RankingFilter(ranking: string)

  predicate Passes(g: Game, f: Filter) {
    match f
    case SearchFilter(search, lower) => search == "" || Contains(lower(g.title), lower(search))
    case StatusFilter(status) => status == AllValues || g.status == status
    case RankingFilter(ranking) => ranking == AllValues || g.ranking == ranking
  }

  /** One `filter` call: the games that pass, in order; a stage everything passes returns the list itself. */
  function Keep(games: seq<Game>, f: Filter): (r: seq<Game>)
    ensures forall g :: g in r <==> g in games && Passes(g, f)
    ensures multiset(r) <= multiset(games)
    ensures (forall g :: g in games ==> Passes(g, f)) ==> r == games
  {
    if games == [] then []
    else
      assert games == [games[0]] + games[1..];
      var rest := Keep(games[1..], f);
      if Passes(games[0], f) then [games[0]] + rest else rest
  }

  /** On the empty list and on one game, `filter` keeps exactly the passing games. */
  lemma KeepBase(g: Game, f: Filter)
    ensures Keep([], f) == []
    ensures Keep([g], f) == if Passes(g, f) then [g] else []
  {
    assert [g][1..] == [];
  }

  /** `filter` works piecewise: the passing games of a list keep their order and multiplicity. */
  lemma {:induction false} KeepConcat(a: seq<Game>, b: seq<Game>, f: Filter)
    ensures Keep(a + b, f) == Keep(a, f) + Keep(b, f)
  {
    if a == [] {
      assert a + b == b;
    } else {
      assert (a + b)[0] == a[0];
      assert (a + b)[1..] == a[1..] + b;
      KeepConcat(a[1..], b, f);
    }
  }

  /** The view's query state. */
  datatype ListQuery = ListQuery(search: string, statusFilter: string, rankingFilter: string, sortBy: string)

  /** The three filters applied one after the other, as the source does. */
  function Selected(games: seq<Game>, q: ListQuery, lower: string -> string): seq<Game> {
    Keep(Keep(Keep(games, SearchFilter(q.search, lower)), StatusFilter(q.statusFilter)), RankingFilter(q.rankingFilter))
  }

  /** A game's place in the tier order; -1 for a tier outside the nine. */
  function RankIndex(g: Game): (i: int)
    ensures -1 <= i < |RankingOrder|
    ensures i == -1 <==> g.ranking !in RankingOrder
  {
    IndexOf(RankingOrder, g.ranking)
  }

  predicate RankLe(a: Game, b: Game) {
    RankIndex(a) <= RankIndex(b)
  }

  /** The title comparison, from an abstract collation `titleLe` of the current locale. */
  function ByTitle(titleLe: (string, string) -> bool): (Game, Game) -> bool {
    (a: Game, b: Game) => titleLe(a.title, b.title)
  }

  /** The sort of a copy of the filtered games. */
  function SortView(games: seq<Game>, sortBy: string, titleLe: (string, string) -> bool): seq<Game> {
    if sortBy == SortByRanking then Sort(games, RankLe) else Sort(games, ByTitle(titleLe))
  }

  /** `filteredGames`. */
  function FilteredGames(games: seq<Game>, q: ListQuery, lower: string -> string,
                         titleLe: (string, string) -> bool): seq<Game> {
    SortView(Selected(games, q, lower), q.sortBy, titleLe)
  }

  /** The view holds exactly the games that pass all three filters: a permutation of part of the list. */
  lemma FilteredIsSelection(games: seq<Game>, q: ListQuery, lower: string -> string,
                            titleLe: (string, string) -> bool)
    ensures multiset(FilteredGames(games, q, lower, titleLe)) == multiset(Selected(games, q, lower))
    ensures multiset(FilteredGames(games, q, lower, titleLe)) <= multiset(games)
    ensures |FilteredGames(games, q, lower, titleLe)| == |Selected(games, q, lower)|
    ensures forall g :: g in FilteredGames(games, q, lower, titleLe) <==>
      && g in games
      && (q.search == "" || Contains(lower(g.title), lower(q.search)))
      && (q.statusFilter == AllValues || g.status == q.statusFilter)
      && (q.rankingFilter == AllValues || g.ranking == q.rankingFilter)
  {
    var v := FilteredGames(games, q, lower, titleLe);
    var s := Selected(games, q, lower);
    assert multiset(v) == multiset(s);
    assert |v| == |multiset(v)| == |multiset(s)| == |s|;
    forall g ensures g in v <==> g in s {
      assert g in v <==> g in multiset(v);
    }
  }

  /** An empty search with both filters at "todos" keeps the whole list. */
  lemma NoFilterKeepsAll(games: seq<Game>, sortBy: string, lower: string -> string)
    ensures Selected(games, ListQuery("", AllValues, AllValues, sortBy), lower) == games
  {
  }

  lemma RankLeTotalPreorder()
    ensures TotalPreorder(RankLe)
  {
  }

  lemma ByTitleTotalPreorder(titleLe: (string, string) -> bool)
    requires TotalPreorder(titleLe)
    ensures TotalPreorder(ByTitle(titleLe))
  {
    var le := ByTitle(titleLe);
    forall a, b ensures le(a, b) || le(b, a) {
      assert titleLe(a.title, b.title) || titleLe(b.title, a.title);
    }
    forall a, b, c | le(a, b) && le(b, c) ensures le(a, c) {
      assert titleLe(a.title, b.title) && titleLe(b.title, c.title);
    }
  }

  /** Sorting by "ranking" orders by tier, keeping equal tiers in list order. */
  lemma RankingViewOrdered(games: seq<Game>, q: ListQuery, lower: string -> string,
                           titleLe: (string, string) -> bool)
    requires q.sortBy == SortByRanking
    ensures forall i, j :: 0 <= i < j < |FilteredGames(games, q, lower, titleLe)| ==>
      RankIndex(FilteredGames(games, q, lower, titleLe)[i]) <= RankIndex(FilteredGames(games, q, lower, titleLe)[j])
    ensures forall p :: Peers(FilteredGames(games, q, lower, titleLe), RankLe, p) == Peers(Selected(games, q, lower), RankLe, p)
  {
    RankLeTotalPreorder();
    var s := Selected(games, q, lower);
    SortSorted(s, RankLe);
    forall p ensures Peers(Sort(s, RankLe), RankLe, p) == Peers(s, RankLe, p) {
      SortStable(s, RankLe, p);
    }
  }

  /** Any other sort value orders by title, keeping equal titles in list order. */
  lemma TitleViewOrdered(games: seq<Game>, q: ListQuery, lower: string -> string,
                         titleLe: (string, string) -> bool)
    requires q.sortBy != SortByRanking && TotalPreorder(titleLe)
    ensures forall i, j :: 0 <= i < j < |FilteredGames(games, q, lower, titleLe)| ==>
      titleLe(FilteredGames(games, q, lower, titleLe)[i].title, FilteredGames(games, q, lower, titleLe)[j].title)
    ensures forall p ::
      Peers(FilteredGames(games, q, lower, titleLe), ByTitle(titleLe), p) == Peers(Selected(games, q, lower), ByTitle(titleLe), p)
  {
    ByTitleTotalPreorder(titleLe);
    var s := Selected(games, q, lower);
    var v := Sort(s, ByTitle(titleLe));
    SortSorted(s, ByTitle(titleLe));
    forall i, j | 0 <= i < j < |v| ensures titleLe(v[i].title, v[j].title) {
      assert ByTitle(titleLe)(v[i], v[j]);
    }
    forall p ensures Peers(v, ByTitle(titleLe), p) == Peers(s, ByTitle(titleLe), p) {
      SortStable(s, ByTitle(titleLe), p);
    }
  }

  /** Of two games, the one of the better tier comes first whatever their list order. */
  lemma RankingSortPair(a: Game, b: Game)
    requires RankIndex(b) < RankIndex(a)
    ensures Sort([a, b], RankLe) == [b, a]
    ensures Sort([b, a], RankLe) == [b, a]
  {
    assert !RankLe(a, b) && RankLe(b, a);
    SortTwo(a, b, RankLe);
    SortTwo(b, a, RankLe);
  }

  /** A game ranked B listed before one ranked S comes after it when sorted by tier. */
  lemma RankingSortExample(a: Game, b: Game)
    requires a.title == "Game A" && a.ranking == "B"
    requires b.title == "Game B" && b.ranking == "S"
    ensures Sort([a, b], RankLe) == [b, a]
  {
    TierIsIndex(GameRanking.B);
    TierIsIndex(GameRanking.S);
    RankingSortPair(a, b);
  }

  function Min(a: int, b: int): int {
    if a <= b then a else b
  }

  /** `Math.max(1, Math.ceil(n / 9))`: the fewest pages of nine that hold n games, at least one. */
  function PageCount(n: nat): (c: nat)
    ensures c >= 1 && n <= c * ItemsPerPage
    ensures c == 1 || (c - 1) * ItemsPerPage < n
  {
    if n == 0 then 1 else (n + ItemsPerPage - 1) / ItemsPerPage
  }

  /** `pagedGames`: the slice of at most nine games that starts at (page - 1) * 9. */
  function PagedGames(view: seq<Game>, page: int): (r: seq<Game>)
    requires page >= 1
    ensures |r| <= ItemsPerPage
    ensures page <= PageCount(|view|) && view != [] ==> r != []
    ensures page > PageCount(|view|) ==> r == []
  {
    var start := (page - 1) * ItemsPerPage;
    if start >= |view| then [] else view[start..Min(start + ItemsPerPage, |view|)]
  }

  /** Pages 1..k laid end to end. */
  function PagesUpTo(view: seq<Game>, k: nat): seq<Game> {
    if k == 0 then [] else PagesUpTo(view, k - 1) + PagedGames(view, k)
  }

  /** Page k is the slice of the view from 9(k - 1) to 9k, both cut at the view's end. */
  lemma PageSlice(view: seq<Game>, k: nat)
    requires k >= 1
    ensures Min((k - 1) * ItemsPerPage, |view|) <= Min(k * ItemsPerPage, |view|)
    ensures PagedGames(view, k) == view[Min((k - 1) * ItemsPerPage, |view|)..Min(k * ItemsPerPage, |view|)]
  {
  }

  lemma {:induction false} PagesUpToPrefix(view: seq<Game>, k: nat)
    ensures PagesUpTo(view, k) == view[..Min(k * ItemsPerPage, |view|)]
  {
    if k > 0 {
      var a := Min((k - 1) * ItemsPerPage, |view|);
      var b := Min(k * ItemsPerPage, |view|);
      assert PagesUpTo(view, k) == PagesUpTo(view, k - 1) + PagedGames(view, k);
      PagesUpToPrefix(view, k - 1);
      PageSlice(view, k);
      assert view[..b] == view[..a] + view[a..b];
    }
  }

  /** Every game of a page is a game of the view. */
  lemma PageOfView(view: seq<Game>, page: int)
    requires page >= 1
    ensures forall g :: g in PagedGames(view, page) ==> g in view
  {
    PageSlice(view, page);
    var a := Min((page - 1) * ItemsPerPage, |view|);
    var b := Min(page * ItemsPerPage, |view|);
    forall g | g in PagedGames(view, page) ensures g in view {
      var i :| 0 <= i < b - a && view[a..b][i] == g;
      assert view[a + i] == g;
    }
  }

  /** Every game on a page is a game of the list that passes the three filters. */
  lemma PageOfSelection(games: seq<Game>, q: ListQuery, lower: string -> string,
                        titleLe: (string, string) -> bool, page: int)
    requires page >= 1
    ensures forall g :: g in PagedGames(FilteredGames(games, q, lower, titleLe), page) ==>
      && g in games
      && (q.search == "" || Contains(lower(g.title), lower(q.search)))
      && (q.statusFilter == AllValues || g.status == q.statusFilter)
      && (q.rankingFilter == AllValues || g.ranking == q.rankingFilter)
  {
    FilteredIsSelection(games, q, lower, titleLe);
    PageOfView(FilteredGames(games, q, lower, titleLe), page);
  }

  /** Pages 1..pageCount partition the view: together they are the view, in order. */
  lemma PagesPartition(view: seq<Game>)
    ensures PagesUpTo(view, PageCount(|view|)) == view
  {
    PagesUpToPrefix(view, PageCount(|view|));
  }

  /** What the delete-all button did. */
  datatype DeleteAllOutcome = NothingToDelete | Declined | ClearRequested

  /** The state of the main screen around the store. */
  class AppState {
    const store: GameStore
    var search: string
    var searchInput: string
    var statusFilter: string
    var rankingFilter: string
    var sortBy: string
    var page: int
    var editing: Option<Game>

    ghost predicate Valid()
      reads this, store
    {
      store.Valid() && page >= 1
    }

    constructor (store: GameStore)
      requires store.Valid()
      ensures Valid() && this.store == store
      ensures search == "" && searchInput == "" && statusFilter == AllValues && rankingFilter == AllValues
      ensures sortBy == SortByTitle && page == 1 && editing == None
    {
      this.store := store;
      search, searchInput := "", "";
      statusFilter, rankingFilter, sortBy := AllValues, AllValues, SortByTitle;
      page, editing := 1, None;
    }

    function Query(): ListQuery
      reads this
    {
      ListQuery(search, statusFilter, rankingFilter, sortBy)
    }

    /** The games on screen. */
    function Shown(lower: string -> string, titleLe: (string, string) -> bool): (r: seq<Game>)
      reads this, store
      requires page >= 1
      ensures |r| <= ItemsPerPage
      ensures forall g :: g in r ==>
        && g in store.games
        && (search == "" || Contains(lower(g.title), lower(search)))
        && (statusFilter == AllValues || g.status == statusFilter)
        && (rankingFilter == AllValues || g.ranking == rankingFilter)
    {
      PageOfSelection(store.games, Query(), lower, titleLe, page);
      PagedGames(FilteredGames(store.games, Query(), lower, titleLe), page)
    }

    /** Choosing a status filter; the reset effect returns to page 1 when the value changed. */
    method SetStatusFilter(f: string)
      requires Valid()
      modifies this`statusFilter, this`page
      ensures Valid() && statusFilter == f
      ensures page == if f != old(statusFilter) then 1 else old(page)
    {
      if f != statusFilter {
        statusFilter := f;
        page := 1;
      }
    }

    /** Choosing a tier filter; resets the page like the status filter. */
    method SetRankingFilter(f: string)
      requires Valid()
      modifies this`rankingFilter, this`page
      ensures Valid() && rankingFilter == f
      ensures page == if f != old(rankingFilter) then 1 else old(page)
    {
      if f != rankingFilter {
        rankingFilter := f;
        page := 1;
      }
    }

    /** Choosing a sort option; resets the page like the filters. */
    method SetSortBy(s: string)
      requires Valid()
      modifies this`sortBy, this`page
      ensures Valid() && sortBy == s
      ensures page == if s != old(sortBy) then 1 else old(page)
    {
      if s != sortBy {
        sortBy := s;
        page := 1;
      }
    }

    method SetSearchInput(text: string)
      modifies this`searchInput
      ensures searchInput == text
    {
      searchInput := text;
    }

    /** `handleSearchSubmit`: the trimmed input becomes the search and the view returns to page 1. */
    method SubmitSearch()
      requires Valid()
      modifies this`search, this`page
      ensures Valid() && search == Trim(searchInput) && page == 1
    {
      search := Trim(searchInput);
      page := 1;
    }

    /** A pagination button. */
    method SetPage(n: int)
      requires Valid() && n >= 1
      modifies this`page
      ensures Valid() && page == n
    {
      page := n;
    }

    /** The clamp effect: a page beyond the page count is lowered to it. */
    method ClampPage(lower: string -> string)
      requires Valid()
      modifies this`page
      ensures Valid()
      ensures var c := PageCount(|Selected(store.games, Query(), lower)|);
        page == if old(page) > c then c else old(page)
    {
      var c := PageCount(|Selected(store.games, Query(), lower)|);
      if page > c {
        page := c;
      }
    }

    /** `handleSubmit`: a non-empty existing id updates that record and ends editing; otherwise the input is added. */
    method HandleSubmit(data: GameInput, existingId: Option<string>, freshId: string, now: string)
      requires Valid()
      modifies this`editing, store
      ensures Valid()
      ensures existingId.Some? && existingId.value != "" ==>
        store.games == UpdateAll(old(store.games), existingId.value, data) && editing == None
      ensures !(existingId.Some? && existingId.value != "") ==>
        store.games == old(store.games) + [NewGame(data, freshId, now)] && editing == old(editing)
    {
      if existingId.Some? && existingId.value != "" {
        store.UpdateGame(existingId.value, data);
        editing := None;
        return;
      }
      store.AddGame(data, freshId, now);
    }

    method HandleEdit(g: Game)
      modifies this`editing
      ensures editing == Some(g)
    {
      editing := Some(g);
    }

    method HandleCancelEdit()
      modifies this`editing
      ensures editing == None
    {
      editing := None;
    }

    /**
     * `handleDeleteAll`: nothing on an empty list; otherwise asks for confirmation and,
     * when given, requests the clear and returns to page 1.
     */
    method HandleDeleteAll(confirmed: bool) returns (outcome: DeleteAllOutcome)
      requires Valid()
      modifies this`page
      ensures Valid()
      ensures |store.games| == 0 ==> outcome == NothingToDelete && page == old(page)
      ensures |store.games| > 0 && !confirmed ==> outcome == Declined && page == old(page)
      ensures |store.games| > 0 && confirmed ==> outcome == ClearRequested && page == 1
    {
      if |store.games| == 0 {
        return NothingToDelete;
      }
      if confirmed {
        page := 1;
        return ClearRequested;
      }
      return Declined;
    }
  }
}
