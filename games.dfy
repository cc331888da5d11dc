/**
 * The public games slice.  The filters of `fetchGamesThunk` only shape the
 * request; the slice stores no filter, page or de-duplication state.
 */
module Games {
  import opened Common
  import opened Actions

  datatype GamesState = GamesState(games: seq<Game>, isLoading: bool, error: Option<string>)

  const Initial := GamesState([], false, None)

  function GamesReduce(s: GamesState, a: Action): GamesState {
    match a
    case SetGames(gs) => s.(games := gs, isLoading := false, error := None)
    case SetLoading => s.(isLoading := true, error := None)
    case SetError(m) => s.(isLoading := false, error := Some(m))
    case _ => s
  }

  /** `fetchGamesThunk`: SET_LOADING, then the list or the error. */
  function FetchGamesActions(o: Outcome<seq<Game>>): seq<Action> {
    [SetLoading, match o case Ok(gs) => SetGames(gs) case Err(m) => SetError(m)]
  }

  /** SET_GAMES replaces the list, ends loading and clears the error. */
  lemma SetGamesEffect(s: GamesState, gs: seq<Game>)
    ensures GamesReduce(s, SetGames(gs)) == GamesState(gs, false, None)
  {
  }

  /** SET_LOADING and SET_ERROR keep the list, stale data included. */
  lemma LoadingAndErrorEffect(s: GamesState, m: string)
    ensures GamesReduce(s, SetLoading) == GamesState(s.games, true, None)
    ensures GamesReduce(s, SetError(m)) == GamesState(s.games, false, Some(m))
  {
  }

  /** Every action this reducer does not declare leaves the slice as it was. */
  lemma OtherActionsIgnored(s: GamesState, a: Action)
    requires WellFormed(a)
    requires !a.SetGames? && !a.SetLoading? && !a.SetError?
    ensures GamesReduce(s, a) == s
  {
  }

  /**
   * Fetching always ends with loading off: the response with no error, or
   * the old list with the message.
   */
  lemma FetchGamesEffect(s: GamesState, o: Outcome<seq<Game>>)
    ensures var r := Run(GamesReduce, s, FetchGamesActions(o));
      && !r.isLoading
      && (o.Ok? ==> r == GamesState(o.value, false, None))
      && (o.Err? ==> r == GamesState(s.games, false, Some(o.message)))
  {
    RunTwo(GamesReduce, s, FetchGamesActions(o)[0], FetchGamesActions(o)[1]);
  }
}
