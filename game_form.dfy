/**
 * The record form (src/components/GameForm.tsx). Its state starts from fixed
 * defaults for a new record, or from the record being edited. A text input
 * replaces one key verbatim; a number input replaces one hours key with null
 * or a number. Submitting with a blank title only sets the error; otherwise the
 * state and the edited record's id are handed over and the form is reset.
 */
module GameFormModel {
  import opened Wrappers
  import opened JsText
  import opened GameTypes

  const DefaultStatus: string := "Empezado"
  const DefaultRanking: string := "G"
  const TitleRequired: string := "El t\U{00ED}tulo es obligatorio"

  /** `defaultFormState`: empty texts, 'Empezado', 'G' and null hours. */
  const DefaultFormState: GameInput :=
    GameInput("", "", DefaultStatus, DefaultRanking, "", Some(""), Some(""), Some(""), Some(""),
              Some(""), Some(""), Hours.Null, Some(""), Hours.Null)

  /** The keys bound to `handleChange`. */
  datatype TextKey =
    | Title | Platform | Status | Ranking | Comment | ReleaseDate | Publisher | Genres
    | FirstPlayedAt | StartDate | EndDate | YearsPlayed

  /** The keys bound to `handleNumberChange`. */
  datatype NumberKey = LastSessionHours | TotalHours

  /** The value of a text key; None when an optional one is absent. */
  function TextOf(s: GameInput, key: TextKey): Option<string> {
    match key
    case Title => Some(s.title)
    case Platform => Some(s.platform)
    case Status => Some(s.status)
    case Ranking => Some(s.ranking)
    case Comment => Some(s.comment)
    case ReleaseDate => s.releaseDate
    case Publisher => s.publisher
    case Genres => s.genres
    case FirstPlayedAt => s.firstPlayedAt
    case StartDate => s.startDate
    case EndDate => s.endDate
    case YearsPlayed => s.yearsPlayed
  }

  function HoursOf(s: GameInput, key: NumberKey): Hours {
    match key
    case LastSessionHours => s.lastSessionHours
    case TotalHours => s.totalHours
  }

  /** The text and hours keys together are the whole form state. */
  lemma KeysDetermineState(s: GameInput, t: GameInput)
    requires forall k :: TextOf(s, k) == TextOf(t, k)
    requires forall k :: HoursOf(s, k) == HoursOf(t, k)
    ensures s == t
  {
    assert s.title == t.title by { assert TextOf(s, Title) == TextOf(t, Title); }
    assert s.platform == t.platform by { assert TextOf(s, Platform) == TextOf(t, Platform); }
    assert s.status == t.status by { assert TextOf(s, Status) == TextOf(t, Status); }
    assert s.ranking == t.ranking by { assert TextOf(s, Ranking) == TextOf(t, Ranking); }
    assert s.comment == t.comment by { assert TextOf(s, Comment) == TextOf(t, Comment); }
    assert s.releaseDate == t.releaseDate by { assert TextOf(s, ReleaseDate) == TextOf(t, ReleaseDate); }
    assert s.publisher == t.publisher by { assert TextOf(s, Publisher) == TextOf(t, Publisher); }
    assert s.genres == t.genres by { assert TextOf(s, Genres) == TextOf(t, Genres); }
    assert s.firstPlayedAt == t.firstPlayedAt by { assert TextOf(s, FirstPlayedAt) == TextOf(t, FirstPlayedAt); }
    assert s.startDate == t.startDate by { assert TextOf(s, StartDate) == TextOf(t, StartDate); }
    assert s.endDate == t.endDate by { assert TextOf(s, EndDate) == TextOf(t, EndDate); }
    assert s.yearsPlayed == t.yearsPlayed by { assert TextOf(s, YearsPlayed) == TextOf(t, YearsPlayed); }
    assert s.lastSessionHours == t.lastSessionHours by { assert HoursOf(s, LastSessionHours) == HoursOf(t, LastSessionHours); }
    assert s.totalHours == t.totalHours by { assert HoursOf(s, TotalHours) == HoursOf(t, TotalHours); }
  }

  /** `{ ...prev, [key]: value }` for a text key: that key holds the value verbatim, nothing else changes. */
  function WithText(s: GameInput, key: TextKey, value: string): (r: GameInput)
    ensures TextOf(r, key) == Some(value)
    ensures forall k :: k != key ==> TextOf(r, k) == TextOf(s, k)
    ensures forall k :: HoursOf(r, k) == HoursOf(s, k)
  {
    match key
    case Title => s.(title := value)
    case Platform => s.(platform := value)
    case Status => s.(status := value)
    case Ranking => s.(ranking := value)
    case Comment => s.(comment := value)
    case ReleaseDate => s.(releaseDate := Some(value))
    case Publisher => s.(publisher := Some(value))
    case Genres => s.(genres := Some(value))
    case FirstPlayedAt => s.(firstPlayedAt := Some(value))
    case StartDate => s.(startDate := Some(value))
    case EndDate => s.(endDate := Some(value))
    case YearsPlayed => s.(yearsPlayed := Some(value))
  }

  /** `{ ...prev, [key]: h }` for an hours key: that key holds `h`, nothing else changes. */
  function WithHours(s: GameInput, key: NumberKey, h: Hours): (r: GameInput)
    ensures HoursOf(r, key) == h
    ensures forall k :: k != key ==> HoursOf(r, k) == HoursOf(s, k)
    ensures forall k :: TextOf(r, k) == TextOf(s, k)
  {
    match key
    case LastSessionHours => s.(lastSessionHours := h)
    case TotalHours => s.(totalHours := h)
  }

  /** `value === '' ? null : Number(value)`. */
  function NumberInput(value: string, toNumber: string -> Number): (h: Hours)
    ensures h == Hours.Null <==> value == ""
    ensures h.Value? ==> h.n == toNumber(value)
  {
    if value == "" then Hours.Null else Value(toNumber(value))
  }

  /** The state a form starts from: the defaults for a new record; for an edit, the record's fields with absent text as '' and absent hours as null. */
  function InitialFormState(initial: Option<Game>): (s: GameInput)
    ensures initial.None? ==> s == DefaultFormState
    ensures Complete(s)
    ensures initial.Some? ==> forall k :: TextOf(s, k) == Some(TextOf(InputOf(initial.value), k).GetOr(""))
    ensures initial.Some? ==> forall k ::
      HoursOf(s, k) == (if HoursOf(InputOf(initial.value), k).Absent? then Hours.Null else HoursOf(InputOf(initial.value), k))
  {
    match initial
    case None => DefaultFormState
    case Some(g) =>
      GameInput(g.title, g.platform, g.status, g.ranking, g.comment,
                Some(g.releaseDate.GetOr("")), Some(g.publisher.GetOr("")), Some(g.genres.GetOr("")),
                Some(g.firstPlayedAt.GetOr("")), Some(g.startDate.GetOr("")), Some(g.endDate.GetOr("")),
                if g.lastSessionHours.Absent? then Hours.Null else g.lastSessionHours,
                Some(g.yearsPlayed.GetOr("")),
                if g.totalHours.Absent? then Hours.Null else g.totalHours)
  }

  /** The defaults are a valid status and tier, and every optional field is present. */
  lemma DefaultFormValid()
    ensures DefaultFormState.status in StatusValues && DefaultFormState.ranking in RankingOrder
    ensures Complete(DefaultFormState) && DefaultFormState.title == ""
  {
    assert StatusValues[3] == DefaultStatus;
    assert RankingOrder[8] == DefaultRanking;
  }

  /** A record whose optional fields are all present. */
  predicate FullRecord(g: Game) {
    && g.releaseDate.Some? && g.publisher.Some? && g.genres.Some? && g.firstPlayedAt.Some?
    && g.startDate.Some? && g.endDate.Some? && !g.lastSessionHours.Absent? && g.yearsPlayed.Some?
    && !g.totalHours.Absent?
  }

  /** Saving an edit form untouched keeps id and timestamp and stores the form's fields; a record with every field present comes back unchanged. */
  lemma SaveUntouchedEdit(g: Game)
    ensures var r := Merge(g, InitialFormState(Some(g)));
      && r.id == g.id && r.createdAt == g.createdAt
      && InputOf(r) == InitialFormState(Some(g))
      && (FullRecord(g) ==> r == g)
  {
    MergeComplete(g, InitialFormState(Some(g)));
  }

  /** What a valid submit hands to the caller: the form state and the edited record's id, if any. */
  datatype Submission = Submission(data: GameInput, existingId: Option<string>)

  /** `initialGame?.id`. */
  function EditedId(initial: Option<Game>): Option<string> {
    match initial
    case None => None
    case Some(g) => Some(g.id)
  }

  class GameForm {
    const initialGame: Option<Game>
    var formState: GameInput
    var error: Option<string>
    var showAdvanced: bool

    constructor(initialGame: Option<Game>)
      ensures this.initialGame == initialGame
      ensures formState == InitialFormState(initialGame) && error == None && !showAdvanced
    {
      this.initialGame := initialGame;
      formState := InitialFormState(initialGame);
      error := None;
      showAdvanced := false;
    }

    /** `handleChange(key)`. */
    method HandleChange(key: TextKey, value: string)
      modifies this`formState
      ensures formState == WithText(old(formState), key, value)
    {
      formState := WithText(formState, key, value);
    }

    /** `handleNumberChange(key)`; `toNumber` stands for `Number()`. */
    method HandleNumberChange(key: NumberKey, value: string, toNumber: string -> Number)
      modifies this`formState
      ensures formState == WithHours(old(formState), key, NumberInput(value, toNumber))
    {
      formState := WithHours(formState, key, NumberInput(value, toNumber));
    }

    /** `handleSubmit`: a blank title sets the error and submits nothing; otherwise the error is cleared, the state is submitted untrimmed with the edited id, and the form is reset. */
    method HandleSubmit() returns (submitted: Option<Submission>)
      modifies this`formState, this`error
      ensures Trim(old(formState).title) == "" ==>
        submitted == None && error == Some(TitleRequired) && formState == old(formState)
      ensures Trim(old(formState).title) != "" ==>
        && submitted == Some(Submission(old(formState), EditedId(initialGame)))
        && error == None && formState == DefaultFormState
    {
      if Trim(formState.title) == "" {
        error := Some(TitleRequired);
        return None;
      }
      error := None;
      submitted := Some(Submission(formState, EditedId(initialGame)));
      formState := DefaultFormState;
    }

    /** The advanced-fields toggle. */
    method ToggleAdvanced()
      modifies this`showAdvanced
      ensures showAdvanced == !old(showAdvanced)
    {
      showAdvanced := !showAdvanced;
    }
  }
}
