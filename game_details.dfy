/**
 * The slice for the game on the details page.  Its loading flag is named
 * `isLoadingGenre`, and its success type is the string "SET_GAMES_DETAILS".
 */
module GameDetails {
  import opened Common
  import opened Actions

  datatype GameDetailsState = GameDetailsState(data: Option<Game>, isLoadingGenre: bool, error: Option<string>)

  const Initial := GameDetailsState(None, false, None)

  function GameDetailsReduce(s: GameDetailsState, a: Action): GameDetailsState {
    match a
    case SetGameDetails(g) => s.(data := Some(g), isLoadingGenre := false, error := None)
    case SetLoading => s.(isLoadingGenre := true, error := None)
    case SetError(m) => s.(isLoadingGenre := false, error := Some(m))
    case _ => s
  }

  /** `fetchGameDetailsThunk`: SET_LOADING, then the game or the error. */
  function FetchGameDetailsActions(o: Outcome<Game>): seq<Action> {
    [SetLoading, match o case Ok(g) => SetGameDetails(g) case Err(m) => SetError(m)]
  }

  /** The success action carries the type "SET_GAMES_DETAILS" and stores the game, clearing flag and error. */
  lemma SetGameDetailsEffect(s: GameDetailsState, g: Game)
    ensures TypeOf(SetGameDetails(g)) == "SET_GAMES_DETAILS"
    ensures GameDetailsReduce(s, SetGameDetails(g)) == GameDetailsState(Some(g), false, None)
  {
  }

  /** SET_LOADING and SET_ERROR keep the previous (possibly stale) game. */
  lemma LoadingAndErrorEffect(s: GameDetailsState, m: string)
    ensures GameDetailsReduce(s, SetLoading) == GameDetailsState(s.data, true, None)
    ensures GameDetailsReduce(s, SetError(m)) == GameDetailsState(s.data, false, Some(m))
  {
  }

  /** Every action this reducer does not declare leaves the slice as it was. */
  lemma OtherActionsIgnored(s: GameDetailsState, a: Action)
    requires WellFormed(a)
    requires !a.SetGameDetails? && !a.SetLoading? && !a.SetError?
    ensures GameDetailsReduce(s, a) == s
  {
  }

  /** Fetching ends with the flag off: the game with no error, or the old game with the message. */
  lemma FetchGameDetailsEffect(s: GameDetailsState, o: Outcome<Game>)
    ensures var r := Run(GameDetailsReduce, s, FetchGameDetailsActions(o));
      && !r.isLoadingGenre
      && (o.Ok? ==> r == GameDetailsState(Some(o.value), false, None))
      && (o.Err? ==> r == GameDetailsState(s.data, false, Some(o.message)))
  {
    RunTwo(GameDetailsReduce, s, FetchGameDetailsActions(o)[0], FetchGameDetailsActions(o)[1]);
  }
}
