/**
 * The root store: six slices under fixed names, each action handed to every
 * slice's reducer, and the thunks as methods of a `Store` object that
 * dispatch into it.  The user-games reducer is not among the six.
 */
module RootStore {
  import opened Common
  import opened Actions
  import opened Auth
  import opened Games
  import opened Genres
  import opened GameDetails
  import opened Comments
  import opened Ratings
  import UserJson
  import UserGames

  datatype RootState = RootState(
    auth: AuthState,
    games: GamesState,
    genres: GenresState,
    gameDetails: GameDetailsState,
    comment: CommentState,
    rating: RatingState)

  /** The state the store starts in, given the rehydrated auth slice. */
  function InitialState(auth: AuthState): RootState {
    RootState(auth, Games.Initial, Genres.Initial, GameDetails.Initial, Comments.Initial, Ratings.Initial)
  }

  /** Every slice but auth starts empty: no data, not loading, no error. */
  lemma StartsEmpty(auth: AuthState)
    ensures var s := InitialState(auth);
      && s.auth == auth
      && s.games == GamesState([], false, None)
      && s.genres == GenresState(None, false, None)
      && s.gameDetails == GameDetailsState(None, false, None)
      && s.comment == CommentState([], None)
      && s.rating == RatingState([], None)
  {
  }

  /** The combined reducer: each slice reduces its own part with the same action. */
  function RootReduce(s: RootState, a: Action): RootState {
    RootState(
      AuthReduce(s.auth, a),
      GamesReduce(s.games, a),
      GenresReduce(s.genres, a),
      GameDetailsReduce(s.gameDetails, a),
      CommentReduce(s.comment, a),
      RatingReduce(s.rating, a))
  }

  function RootRun(s: RootState, acts: seq<Action>): RootState {
    Run(RootReduce, s, acts)
  }

  /** Actions whose type none of the six registered slices declares. */
  predicate IgnoredByRoot(a: Action) {
    (a.Unknown? && a.tag !in KnownTypes) || a.SetUserGames? || a.SetUserGame? || a.AddGame? || a.UpdateGame? || a.DeleteGame?
  }

  // ---------------------------------------------------------------------
  // Properties of the combined reducer

  /**
   * Any sequence of dispatches leaves each slice where its own reducer alone
   * would have taken it from its own starting value: slices never see each
   * other's state.
   */
  lemma {:induction false} RunBySlice(s: RootState, acts: seq<Action>)
    ensures RootRun(s, acts) == RootState(
      Run(AuthReduce, s.auth, acts),
      Run(GamesReduce, s.games, acts),
      Run(GenresReduce, s.genres, acts),
      Run(GameDetailsReduce, s.gameDetails, acts),
      Run(CommentReduce, s.comment, acts),
      Run(RatingReduce, s.rating, acts))
    decreases |acts|
  {
    if acts != [] {
      RunBySlice(RootReduce(s, acts[0]), acts[1..]);
    }
  }

  /**
   * One SET_LOADING, from whichever thunk, turns on the loading flag of
   * auth, games, genres and game details and clears all four errors; the
   * comment and rating slices and everything else stay.
   */
  lemma SetLoadingEverywhere(s: RootState)
    ensures var r := RootReduce(s, SetLoading);
      && r.auth == s.auth.(isLoading := true, error := None)
      && r.games == s.games.(isLoading := true, error := None)
      && r.genres == s.genres.(isLoading := true, error := None)
      && r.gameDetails == s.gameDetails.(isLoadingGenre := true, error := None)
      && r.comment == s.comment && r.rating == s.rating
  {
  }

  /**
   * One SET_ERROR writes the same message into auth, games, genres and game
   * details and turns their loading flags off; comments and ratings stay.
   */
  lemma SetErrorEverywhere(s: RootState, m: string)
    ensures var r := RootReduce(s, SetError(m));
      && r.auth == s.auth.(isLoading := false, error := Some(m))
      && r.games == s.games.(isLoading := false, error := Some(m))
      && r.genres == s.genres.(isLoading := false, error := Some(m))
      && r.gameDetails == s.gameDetails.(isLoadingGenre := false, error := Some(m))
      && r.comment == s.comment && r.rating == s.rating
  {
  }

  /**
   * A run of actions none of the six slices declares, the user-games
   * actions included, leaves the whole root state unchanged.
   */
  lemma {:induction false} IgnoredRunIsNoop(s: RootState, acts: seq<Action>)
    requires forall i :: 0 <= i < |acts| ==> IgnoredByRoot(acts[i])
    ensures RootRun(s, acts) == s
    decreases |acts|
  {
    if acts != [] {
      assert IgnoredByRoot(acts[0]);
      assert RootReduce(s, acts[0]) == s;
      IgnoredRunIsNoop(s, acts[1..]);
    }
  }

  /**
   * `fetchGamesThunk` seen from the root: on success the games slice is
   * settled, but the loading flags of auth, genres and game details that
   * its SET_LOADING turned on stay on; on failure all four slices show the
   * message and stop loading.
   */
  lemma FetchGamesAcrossSlices(s: RootState, o: Outcome<seq<Game>>)
    ensures var r := RootRun(s, FetchGamesActions(o));
      && (o.Ok? ==> && r.games == GamesState(o.value, false, None)
                    && r.auth.isLoading && r.genres.isLoading && r.gameDetails.isLoadingGenre
                    && r.auth.error == None && r.genres.error == None && r.gameDetails.error == None)
      && (o.Err? ==> && !r.auth.isLoading && !r.games.isLoading && !r.genres.isLoading
                     && !r.gameDetails.isLoadingGenre
                     && r.auth.error == r.games.error == r.genres.error == r.gameDetails.error
                        == Some(o.message))
      && r.comment == s.comment && r.rating == s.rating
  {
    RunTwo(RootReduce, s, FetchGamesActions(o)[0], FetchGamesActions(o)[1]);
  }

  /**
   * `fetchUserGamesThunk` seen from the root: the list it fetched goes
   * nowhere (no registered slice declares SET_USER_GAMES), so on success
   * the only trace is the SET_LOADING it dispatched first, which leaves four
   * slices loading.
   */
  lemma FetchUserGamesAtRoot(s: RootState, o: Outcome<seq<Game>>)
    ensures o.Ok? ==> RootRun(s, UserGames.FetchUserGamesActions(o)) == RootReduce(s, SetLoading)
    ensures o.Err? ==>
      RootRun(s, UserGames.FetchUserGamesActions(o)) == RootReduce(RootReduce(s, SetLoading), SetError(o.message))
  {
    var acts := UserGames.FetchUserGamesActions(o);
    RunTwo(RootReduce, s, acts[0], acts[1]);
  }

  /** The successful create, update and delete of a user game leave the root state unchanged. */
  lemma UserGameMutationsAtRoot(s: RootState, g: Game, gameId: string)
    ensures RootRun(s, UserGames.CreateUserGameActions(Ok(g))) == s
    ensures RootRun(s, UserGames.UpdateUserGameActions(Ok(g))) == s
    ensures RootRun(s, UserGames.DeleteUserGameActions(gameId, Ok(()))) == s
  {
    IgnoredRunIsNoop(s, UserGames.CreateUserGameActions(Ok(g)));
    IgnoredRunIsNoop(s, UserGames.UpdateUserGameActions(Ok(g)));
    IgnoredRunIsNoop(s, UserGames.DeleteUserGameActions(gameId, Ok(())));
  }

  // ---------------------------------------------------------------------
  // The store object and the thunks

  /**
   * The store together with `localStorage`.  `dispatched` records every
   * action in order; the state is always those actions run from the initial
   * state, and the token and user in the auth slice mirror what storage holds.
   */
  class Store {
    var state: RootState
    var storage: Storage
    ghost var initial: RootState
    ghost var dispatched: seq<Action>

    /** The state is the result of dispatching the recorded actions from the initial state. */
    ghost predicate Folded()
      reads this
    {
      state == RootRun(initial, dispatched)
    }

    /** The session in memory is the session in storage. */
    ghost predicate Mirrored()
      reads this
    {
      state.auth.token == GetItem(storage, TokenKey) && state.auth.user == StoredUser(storage)
    }

    ghost predicate Valid()
      reads this
    {
      Folded() && Mirrored()
    }

    /** Loading the store: rehydrate auth from storage, every other slice at its initial value. */
    constructor (storage0: Storage)
      requires Rehydrate(storage0).Some?
      ensures storage == storage0
      ensures state == InitialState(Rehydrate(storage0).value)
      ensures dispatched == []
      ensures Valid()
    {
      storage := storage0;
      state := InitialState(Rehydrate(storage0).value);
      initial := InitialState(Rehydrate(storage0).value);
      dispatched := [];
    }

    /** `dispatch(action)`: every slice reduces it. */
    method Dispatch(a: Action)
      requires Folded() && WellFormed(a)
      modifies this
      ensures Folded()
      ensures state == RootReduce(old(state), a)
      ensures dispatched == old(dispatched) + [a]
      ensures storage == old(storage) && initial == old(initial)
    {
      RunSnoc(RootReduce, initial, dispatched, a);
      state := RootReduce(state, a);
      dispatched := dispatched + [a];
    }

    /** Dispatches `a` then `b`. */
    method DispatchTwo(a: Action, b: Action)
      requires Folded() && WellFormed(a) && WellFormed(b)
      modifies this
      ensures Folded()
      ensures state == RootRun(old(state), [a, b]) == RootReduce(RootReduce(old(state), a), b)
      ensures dispatched == old(dispatched) + [a, b]
      ensures storage == old(storage) && initial == old(initial)
    {
      Dispatch(a);
      Dispatch(b);
      RunTwo(RootReduce, old(state), a, b);
      assert old(dispatched) + [a] + [b] == old(dispatched) + [a, b];
    }

    /** Dispatches the one action `a`. */
    method DispatchOne(a: Action)
      requires Folded() && WellFormed(a)
      modifies this
      ensures Folded()
      ensures state == RootRun(old(state), [a]) == RootReduce(old(state), a)
      ensures dispatched == old(dispatched) + [a]
      ensures storage == old(storage) && initial == old(initial)
    {
      Dispatch(a);
      RunOne(RootReduce, old(state), a);
    }

    // --- userGameReducer.ts

    method FetchUserGames(o: Outcome<seq<Game>>)
      requires Valid()
      modifies this
      ensures Valid() && storage == old(storage) && initial == old(initial)
      ensures dispatched == old(dispatched) + UserGames.FetchUserGamesActions(o)
      ensures state == RootRun(old(state), UserGames.FetchUserGamesActions(o))
    {
      var acts := UserGames.FetchUserGamesActions(o);
      DispatchTwo(acts[0], acts[1]);
    }

    method FetchUserGameById(o: Outcome<Game>)
      requires Valid()
      modifies this
      ensures Valid() && storage == old(storage) && initial == old(initial)
      ensures dispatched == old(dispatched) + UserGames.FetchUserGameByIdActions(o)
      ensures state == RootRun(old(state), UserGames.FetchUserGameByIdActions(o))
    {
      var acts := UserGames.FetchUserGameByIdActions(o);
      DispatchTwo(acts[0], acts[1]);
    }

    method CreateUserGame(o: Outcome<Game>)
      requires Valid()
      modifies this
      ensures Valid() && storage == old(storage) && initial == old(initial)
      ensures dispatched == old(dispatched) + UserGames.CreateUserGameActions(o)
      ensures state == RootRun(old(state), UserGames.CreateUserGameActions(o))
    {
      DispatchOne(UserGames.CreateUserGameActions(o)[0]);
    }

    method UpdateUserGame(o: Outcome<Game>)
      requires Valid()
      modifies this
      ensures Valid() && storage == old(storage) && initial == old(initial)
      ensures dispatched == old(dispatched) + UserGames.UpdateUserGameActions(o)
      ensures state == RootRun(old(state), UserGames.UpdateUserGameActions(o))
    {
      DispatchOne(UserGames.UpdateUserGameActions(o)[0]);
    }

    method DeleteUserGame(gameId: string, o: Outcome<()>)
      requires Valid()
      modifies this
      ensures Valid() && storage == old(storage) && initial == old(initial)
      ensures dispatched == old(dispatched) + UserGames.DeleteUserGameActions(gameId, o)
      ensures state == RootRun(old(state), UserGames.DeleteUserGameActions(gameId, o))
    {
      DispatchOne(UserGames.DeleteUserGameActions(gameId, o)[0]);
    }

    // --- authReducer.ts

    /**
     * Shared body of register and login: SET_LOADING; on success write the
     * token and the serialized user to storage, then SET_USER, and report
     * true; on failure leave storage alone, SET_ERROR, and report false.
     */
    method SignIn(o: Outcome<Session>, fallback: string) returns (ok: bool)
      requires Valid()
      modifies this
      ensures Valid() && initial == old(initial)
      ensures ok == o.Ok?
      ensures o.Ok? ==> storage == old(storage)[TokenKey := o.value.token][UserKey := UserJson.Serialize(o.value.user)]
      ensures o.Err? ==> storage == old(storage)
      ensures dispatched == old(dispatched) + SignInActions(o, fallback)
      ensures state == RootRun(old(state), SignInActions(o, fallback))
    {
      var acts := SignInActions(o, fallback);
      Dispatch(acts[0]);
      match o {
        case Ok(session) =>
          storage := storage[TokenKey := session.token][UserKey := UserJson.Serialize(session.user)];
          UserJson.RoundTrip(session.user);
          UserJson.SerializeNonEmpty(session.user);
          Dispatch(acts[1]);
          ok := true;
        case Err(m) =>
          Dispatch(acts[1]);
          ok := false;
      }
      RunTwo(RootReduce, old(state), acts[0], acts[1]);
      assert old(dispatched) + [acts[0]] + [acts[1]] == old(dispatched) + acts;
    }

    method RegisterUser(o: Outcome<Session>) returns (ok: bool)
      requires Valid()
      modifies this
      ensures Valid() && initial == old(initial)
      ensures ok == o.Ok?
      ensures o.Ok? ==> storage == old(storage)[TokenKey := o.value.token][UserKey := UserJson.Serialize(o.value.user)]
      ensures o.Err? ==> storage == old(storage)
      ensures dispatched == old(dispatched) + SignInActions(o, RegistrationFailed)
      ensures state == RootRun(old(state), SignInActions(o, RegistrationFailed))
    {
      ok := SignIn(o, RegistrationFailed);
    }

    method LoginUser(o: Outcome<Session>) returns (ok: bool)
      requires Valid()
      modifies this
      ensures Valid() && initial == old(initial)
      ensures ok == o.Ok?
      ensures o.Ok? ==> storage == old(storage)[TokenKey := o.value.token][UserKey := UserJson.Serialize(o.value.user)]
      ensures o.Err? ==> storage == old(storage)
      ensures dispatched == old(dispatched) + SignInActions(o, LoginFailed)
      ensures state == RootRun(old(state), SignInActions(o, LoginFailed))
    {
      ok := SignIn(o, LoginFailed);
    }

    /**
     * `logoutUserThunk`: with no truthy token in storage nothing happens;
     * otherwise the server is told, and only if that call does not throw are
     * both keys removed and LOGOUT dispatched.
     */
    method LogoutUser(o: Outcome<()>)
      requires Valid()
      modifies this
      ensures Valid() && initial == old(initial)
      ensures Truthy(GetItem(old(storage), TokenKey)) && o.Ok? ==>
        && storage == old(storage) - {TokenKey, UserKey}
        && dispatched == old(dispatched) + [Logout]
        && state == RootReduce(old(state), Logout)
      ensures !(Truthy(GetItem(old(storage), TokenKey)) && o.Ok?) ==>
        && storage == old(storage)
        && dispatched == old(dispatched)
        && state == old(state)
    {
      var token := GetItem(storage, TokenKey);
      if Truthy(token) {
        match o {
          case Ok(_) =>
            storage := storage - {TokenKey, UserKey};
            Dispatch(Logout);
          case Err(_) =>
        }
      }
    }

    // --- commentReducer.ts

    method FetchComments(o: Outcome<seq<Comment>>)
      requires Valid()
      modifies this
      ensures Valid() && storage == old(storage) && initial == old(initial)
      ensures dispatched == old(dispatched) + FetchCommentsActions(o)
      ensures state == RootRun(old(state), FetchCommentsActions(o))
    {
      DispatchOne(FetchCommentsActions(o)[0]);
    }

    method PostComment(o: Outcome<Option<Comment>>)
      requires Valid()
      modifies this
      ensures Valid() && storage == old(storage) && initial == old(initial)
      ensures dispatched == old(dispatched) + PostCommentActions(o)
      ensures state == RootRun(old(state), PostCommentActions(o))
    {
      DispatchOne(PostCommentActions(o)[0]);
    }

    // --- ratingReducer.ts

    method FetchRatings(o: Outcome<seq<Rating>>)
      requires Valid()
      modifies this
      ensures Valid() && storage == old(storage) && initial == old(initial)
      ensures dispatched == old(dispatched) + FetchRatingsActions(o)
      ensures state == RootRun(old(state), FetchRatingsActions(o))
    {
      DispatchOne(FetchRatingsActions(o)[0]);
    }

    method PostRating(o: Outcome<Rating>)
      requires Valid()
      modifies this
      ensures Valid() && storage == old(storage) && initial == old(initial)
      ensures dispatched == old(dispatched) + PostRatingActions(o)
      ensures state == RootRun(old(state), PostRatingActions(o))
    {
      DispatchOne(PostRatingActions(o)[0]);
    }

    // --- gamesReducer.ts, gameDetailsReducer.ts, genresReducer.ts

    method FetchGames(o: Outcome<seq<Game>>)
      requires Valid()
      modifies this
      ensures Valid() && storage == old(storage) && initial == old(initial)
      ensures dispatched == old(dispatched) + FetchGamesActions(o)
      ensures state == RootRun(old(state), FetchGamesActions(o))
    {
      var acts := FetchGamesActions(o);
      DispatchTwo(acts[0], acts[1]);
    }

    method FetchGameDetails(o: Outcome<Game>)
      requires Valid()
      modifies this
      ensures Valid() && storage == old(storage) && initial == old(initial)
      ensures dispatched == old(dispatched) + FetchGameDetailsActions(o)
      ensures state == RootRun(old(state), FetchGameDetailsActions(o))
    {
      var acts := FetchGameDetailsActions(o);
      DispatchTwo(acts[0], acts[1]);
    }

    method FetchGenres(o: Outcome<seq<Genre>>)
      requires Valid()
      modifies this
      ensures Valid() && storage == old(storage) && initial == old(initial)
      ensures dispatched == old(dispatched) + FetchGenresActions(o)
      ensures state == RootRun(old(state), FetchGenresActions(o))
    {
      var acts := FetchGenresActions(o);
      DispatchTwo(acts[0], acts[1]);
    }
  }
}
