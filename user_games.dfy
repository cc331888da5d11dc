/**
 * The slice that holds the signed-in user's own games: its reducer, the
 * list operations behind ADD_GAME / UPDATE_GAME / DELETE_GAME, and the
 * actions each of the five thunks dispatches.
 */
module UserGames {
  import opened Common
  import opened Actions

  datatype UserGamesState = UserGamesState(
    games: seq<Game>,
    selectedGame: Option<Game>,
    isLoading: bool,
    error: Option<string>)

  const Initial := UserGamesState([], None, false, None)

  /** `games.map(game => game.id === updated.id ? updated : game)`. */
  function ReplaceById(games: seq<Game>, updated: Game): seq<Game>
    decreases |games|
  {
    if games == [] then []
    else [if games[0].id == updated.id then updated else games[0]] + ReplaceById(games[1..], updated)
  }

  /** `games.filter(game => game.id !== gameId)`. */
  function RemoveById(games: seq<Game>, gameId: string): seq<Game>
    decreases |games|
  {
    if games == [] then []
    else (if games[0].id == gameId then [] else [games[0]]) + RemoveById(games[1..], gameId)
  }

  /** How many games in the list carry the id. */
  function CountId(games: seq<Game>, gameId: string): nat
    decreases |games|
  {
    if games == [] then 0 else (if games[0].id == gameId then 1 else 0) + CountId(games[1..], gameId)
  }

  /** The reducer: one `case` per action type of this slice, anything else passes the state through. */
  function UserGamesReduce(s: UserGamesState, a: Action): UserGamesState {
    match a
    case SetUserGames(gs) => s.(games := gs, isLoading := false)
    case SetUserGame(g) => s.(selectedGame := Some(g), isLoading := false)
    case SetLoading => s.(isLoading := true, error := None)
    case SetError(m) => s.(isLoading := false, error := Some(m))
    case AddGame(g) => s.(games := s.games + [g])
    case UpdateGame(g) => s.(games := ReplaceById(s.games, g))
    case DeleteGame(id) => s.(games := RemoveById(s.games, id))
    case _ => s
  }

  // ---------------------------------------------------------------------
  // The list operations

  /**
   * Updating keeps the length and the order: position by position, a game
   * with the updated id becomes the update and every other game stays.
   */
  lemma {:induction false} ReplaceByIdAt(games: seq<Game>, updated: Game)
    ensures |ReplaceById(games, updated)| == |games|
    ensures forall i :: 0 <= i < |games| ==>
      ReplaceById(games, updated)[i] == (if games[i].id == updated.id then updated else games[i])
    decreases |games|
  {
    if games != [] {
      ReplaceByIdAt(games[1..], updated);
    }
  }

  /** An update for an id the list does not hold changes nothing: it is not inserted. */
  lemma ReplaceByIdAbsent(games: seq<Game>, updated: Game)
    requires forall g :: g in games ==> g.id != updated.id
    ensures ReplaceById(games, updated) == games
  {
    ReplaceByIdAt(games, updated);
  }

  /**
   * After an update, every game with that id is the update itself, and the
   * update is in the list exactly when some old game had its id.
   */
  lemma ReplaceByIdHits(games: seq<Game>, updated: Game)
    ensures forall g :: g in ReplaceById(games, updated) && g.id == updated.id ==> g == updated
    ensures (exists g :: g in games && g.id == updated.id) <==> updated in ReplaceById(games, updated)
  {
    ReplaceByIdAt(games, updated);
    var r := ReplaceById(games, updated);
    forall g | g in r && g.id == updated.id ensures g == updated {
      var i :| 0 <= i < |r| && r[i] == g;
    }
    if g :| g in games && g.id == updated.id {
      var i :| 0 <= i < |games| && games[i] == g;
      assert r[i] == updated;
    }
    if !exists g :: g in games && g.id == updated.id {
      ReplaceByIdAbsent(games, updated);
    }
  }

  /** Deleting keeps exactly the games with another id, and counts: |kept| + |removed| == |games|. */
  lemma {:induction false} RemoveByIdMembers(games: seq<Game>, gameId: string)
    ensures forall g :: g in RemoveById(games, gameId) <==> g in games && g.id != gameId
    ensures |RemoveById(games, gameId)| + CountId(games, gameId) == |games|
    decreases |games|
  {
    if games != [] {
      RemoveByIdMembers(games[1..], gameId);
      assert games == [games[0]] + games[1..];
    }
  }

  /** Deleting distributes over concatenation, so the kept games stay in their original order. */
  lemma {:induction false} RemoveByIdAppend(xs: seq<Game>, ys: seq<Game>, gameId: string)
    ensures RemoveById(xs + ys, gameId) == RemoveById(xs, gameId) + RemoveById(ys, gameId)
    decreases |xs|
  {
    if xs == [] {
      assert [] + ys == ys;
    } else {
      assert (xs + ys)[0] == xs[0];
      assert (xs + ys)[1..] == xs[1..] + ys;
      RemoveByIdAppend(xs[1..], ys, gameId);
    }
  }

  /** Deleting an id the list does not hold changes nothing. */
  lemma {:induction false} RemoveByIdAbsent(games: seq<Game>, gameId: string)
    requires forall g :: g in games ==> g.id != gameId
    ensures RemoveById(games, gameId) == games
    decreases |games|
  {
    if games != [] {
      assert games[0] in games;
      RemoveByIdAbsent(games[1..], gameId);
      assert games == [games[0]] + games[1..];
    }
  }

  // ---------------------------------------------------------------------
  // One action on the slice

  /** SET_USER_GAMES replaces the list and ends loading; the error and the selected game stay. */
  lemma SetUserGamesEffect(s: UserGamesState, gs: seq<Game>)
    ensures UserGamesReduce(s, SetUserGames(gs))
      == UserGamesState(gs, s.selectedGame, false, s.error)
  {
  }

  /** SET_LOADING starts loading and clears the error; SET_ERROR ends loading and records it; the games stay. */
  lemma LoadingAndErrorEffect(s: UserGamesState, m: string)
    ensures UserGamesReduce(s, SetLoading) == UserGamesState(s.games, s.selectedGame, true, None)
    ensures UserGamesReduce(s, SetError(m)) == UserGamesState(s.games, s.selectedGame, false, Some(m))
  {
  }

  /** ADD_GAME appends: one more game, the new one last, the old list a prefix. */
  lemma AddGameEffect(s: UserGamesState, g: Game)
    ensures var r := UserGamesReduce(s, AddGame(g));
      && |r.games| == |s.games| + 1
      && r.games[|s.games|] == g
      && r.games[..|s.games|] == s.games
      && r.(games := s.games) == s
  {
    var r := UserGamesReduce(s, AddGame(g));
    assert r.games[..|s.games|] == s.games;
  }

  /** UPDATE_GAME replaces, in place, the games with the payload's id and nothing else. */
  lemma UpdateGameEffect(s: UserGamesState, g: Game)
    ensures var r := UserGamesReduce(s, UpdateGame(g));
      && |r.games| == |s.games|
      && (forall i :: 0 <= i < |s.games| ==>
            r.games[i] == (if s.games[i].id == g.id then g else s.games[i]))
      && ((forall x :: x in s.games ==> x.id != g.id) ==> r == s)
      && r.(games := s.games) == s
  {
    ReplaceByIdAt(s.games, g);
    if forall x :: x in s.games ==> x.id != g.id {
      ReplaceByIdAbsent(s.games, g);
    }
  }

  /** DELETE_GAME removes every game with the id and keeps the others; an absent id is a no-op. */
  lemma DeleteGameEffect(s: UserGamesState, gameId: string)
    ensures var r := UserGamesReduce(s, DeleteGame(gameId));
      && (forall x :: x in r.games <==> x in s.games && x.id != gameId)
      && (forall x :: x in r.games ==> x.id != gameId)
      && ((forall x :: x in s.games ==> x.id != gameId) ==> r == s)
      && r.(games := s.games) == s
  {
    RemoveByIdMembers(s.games, gameId);
    if forall x :: x in s.games ==> x.id != gameId {
      RemoveByIdAbsent(s.games, gameId);
    }
  }

  /** A type this reducer does not declare leaves the state as it was. */
  lemma UnknownEffect(s: UserGamesState, a: Action)
    requires WellFormed(a)
    requires a.Unknown? || a.SetUser? || a.Logout? || a.SetComments? || a.AddComment?
      || a.SetCommentError? || a.SetRatings? || a.AddRating? || a.SetRatingError?
      || a.SetGames? || a.SetGameDetails? || a.SetGenres?
    ensures UserGamesReduce(s, a) == s
  {
  }

  // ---------------------------------------------------------------------
  // What the thunks dispatch, given what the API call produced

  /** `fetchUserGamesThunk`: SET_LOADING, then the list or the error. */
  function FetchUserGamesActions(o: Outcome<seq<Game>>): seq<Action> {
    [SetLoading, match o case Ok(gs) => SetUserGames(gs) case Err(m) => SetError(m)]
  }

  /** `fetchUserGameByIdThunk`: SET_LOADING, then the game or the error. */
  function FetchUserGameByIdActions(o: Outcome<Game>): seq<Action> {
    [SetLoading, match o case Ok(g) => SetUserGame(g) case Err(m) => SetError(m)]
  }

  /** `createUserGameThunk`: the created game or the error, with no loading step. */
  function CreateUserGameActions(o: Outcome<Game>): seq<Action> {
    [match o case Ok(g) => AddGame(g) case Err(m) => SetError(m)]
  }

  /** `updateUserGameThunk`: the updated game or the error, with no loading step. */
  function UpdateUserGameActions(o: Outcome<Game>): seq<Action> {
    [match o case Ok(g) => UpdateGame(g) case Err(m) => SetError(m)]
  }

  /** `deleteUserGameThunk`: the requested id (not the response) or the error, with no loading step. */
  function DeleteUserGameActions(gameId: string, o: Outcome<()>): seq<Action> {
    [match o case Ok(_) => DeleteGame(gameId) case Err(m) => SetError(m)]
  }

  /**
   * Fetching the list always ends with loading off; on success the list is
   * the response and the error is cleared, on failure the old list stays
   * and the error is the message.
   */
  lemma FetchUserGamesEffect(s: UserGamesState, o: Outcome<seq<Game>>)
    ensures var r := Run(UserGamesReduce, s, FetchUserGamesActions(o));
      && !r.isLoading
      && r.selectedGame == s.selectedGame
      && (o.Ok? ==> r.games == o.value && r.error == None)
      && (o.Err? ==> r.games == s.games && r.error == Some(o.message))
  {
    RunTwo(UserGamesReduce, s, FetchUserGamesActions(o)[0], FetchUserGamesActions(o)[1]);
  }

  /** Fetching one game ends with loading off and either selects it or records the error; the list stays. */
  lemma FetchUserGameByIdEffect(s: UserGamesState, o: Outcome<Game>)
    ensures var r := Run(UserGamesReduce, s, FetchUserGameByIdActions(o));
      && !r.isLoading
      && r.games == s.games
      && (o.Ok? ==> r.selectedGame == Some(o.value) && r.error == None)
      && (o.Err? ==> r.selectedGame == s.selectedGame && r.error == Some(o.message))
  {
    RunTwo(UserGamesReduce, s, FetchUserGameByIdActions(o)[0], FetchUserGameByIdActions(o)[1]);
  }

  /**
   * A failed create, update or delete dispatches only SET_ERROR: the games
   * are not touched (nothing was changed optimistically).
   */
  lemma MutationFailureEffect(s: UserGamesState, gameId: string, m: string)
    ensures CreateUserGameActions(Err(m)) == UpdateUserGameActions(Err(m))
      == DeleteUserGameActions(gameId, Err(m)) == [SetError(m)]
    ensures Run(UserGamesReduce, s, [SetError(m)])
      == UserGamesState(s.games, s.selectedGame, false, Some(m))
  {
    RunOne(UserGamesReduce, s, SetError(m));
  }

  /** A successful create appends the server's game to the end of the list. */
  lemma CreateUserGameEffect(s: UserGamesState, g: Game)
    ensures Run(UserGamesReduce, s, CreateUserGameActions(Ok(g))).games == s.games + [g]
  {
    RunOne(UserGamesReduce, s, AddGame(g));
  }

  /** A successful update replaces the games with that id, keeping length and order. */
  lemma UpdateUserGameEffect(s: UserGamesState, g: Game)
    ensures var r := Run(UserGamesReduce, s, UpdateUserGameActions(Ok(g)));
      && |r.games| == |s.games|
      && forall i :: 0 <= i < |s.games| ==>
           r.games[i] == (if s.games[i].id == g.id then g else s.games[i])
  {
    RunOne(UserGamesReduce, s, UpdateGame(g));
    ReplaceByIdAt(s.games, g);
  }

  /** A successful delete leaves no game with the requested id. */
  lemma DeleteUserGameEffect(s: UserGamesState, gameId: string)
    ensures var r := Run(UserGamesReduce, s, DeleteUserGameActions(gameId, Ok(())));
      && (forall x :: x in r.games <==> x in s.games && x.id != gameId)
  {
    RunOne(UserGamesReduce, s, DeleteGame(gameId));
    RemoveByIdMembers(s.games, gameId);
  }
}
