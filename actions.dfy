/**
 * The actions the slices of the store react to.  In the client an action is
 * `{ type: string, payload?: any }` and every slice switches on the `type`
 * string; here each distinct `type` string is one constructor whose fields
 * are the payload.  Because several slices declare the very same strings
 * "SET_LOADING" and "SET_ERROR", those two are a single constructor each:
 * one dispatch of either is seen by every slice that declares it.
 */
module Actions {
  import opened Common

  datatype Action =
    // userGameReducer.ts
    | SetUserGames(games: seq<Game>)
    | SetUserGame(game: Game)
    | AddGame(game: Game)
    | UpdateGame(game: Game)
    | DeleteGame(gameId: string)
    // declared alike in userGameReducer, authReducer, gamesReducer,
    // gameDetailsReducer and genresReducer
    | SetLoading
    | SetError(message: string)
    // authReducer.ts; `token` is `None` when the payload carried no token
    | SetUser(user: User, token: Option<string>)
    | Logout
    // commentReducer.ts
    | SetComments(comments: seq<Comment>)
    | AddComment(comment: Comment)
    | SetCommentError(message: string)
    // ratingReducer.ts
    | SetRatings(ratings: seq<Rating>)
    | AddRating(rating: Rating)
    | SetRatingError(message: string)
    // gamesReducer.ts
    | SetGames(games: seq<Game>)
    // gameDetailsReducer.ts
    | SetGameDetails(game: Game)
    // genresReducer.ts
    | SetGenres(genres: seq<Genre>)
    // any other `type` string
    | Unknown(tag: string)

  /** The `type` string the client puts on the action. */
  function TypeOf(a: Action): string {
    match a
    case SetUserGames(_) => "SET_USER_GAMES"
    case SetUserGame(_) => "SET_USER_GAME"
    case AddGame(_) => "ADD_GAME"
    case UpdateGame(_) => "UPDATE_GAME"
    case DeleteGame(_) => "DELETE_GAME"
    case SetLoading => "SET_LOADING"
    case SetError(_) => "SET_ERROR"
    case SetUser(_, _) => "SET_USER"
    case Logout => "LOGOUT"
    case SetComments(_) => "SET_COMMENTS"
    case AddComment(_) => "ADD_COMMENT"
    case SetCommentError(_) => "SET_COMMENT_ERROR"
    case SetRatings(_) => "SET_RATINGS"
    case AddRating(_) => "ADD_RATING"
    case SetRatingError(_) => "SET_RATING_ERROR"
    case SetGames(_) => "SET_GAMES"
    case SetGameDetails(_) => "SET_GAMES_DETAILS"
    case SetGenres(_) => "SET_GENRES"
    case Unknown(t) => t
  }

  /** Every `type` string some reducer of the client declares. */
  const KnownTypes: seq<string> := [
    "SET_USER_GAMES", "SET_USER_GAME", "ADD_GAME", "UPDATE_GAME", "DELETE_GAME",
    "SET_LOADING", "SET_ERROR", "SET_USER", "LOGOUT",
    "SET_COMMENTS", "ADD_COMMENT", "SET_COMMENT_ERROR",
    "SET_RATINGS", "ADD_RATING", "SET_RATING_ERROR",
    "SET_GAMES", "SET_GAMES_DETAILS", "SET_GENRES"]

  /** An `Unknown` action really is unknown: its tag is none of the declared ones. */
  predicate WellFormed(a: Action) {
    a.Unknown? ==> a.tag !in KnownTypes
  }

  /**
   * The declared strings are pairwise distinct, so giving each its own
   * constructor loses nothing, and every known constructor carries one of them.
   */
  lemma TypesDistinct(a: Action)
    ensures forall i, j :: 0 <= i < j < |KnownTypes| ==> KnownTypes[i] != KnownTypes[j]
    ensures !a.Unknown? ==> TypeOf(a) in KnownTypes
    ensures WellFormed(a) ==> (a.Unknown? <==> TypeOf(a) !in KnownTypes)
  {
  }

  /**
   * Dispatching `acts` one after another, starting in `s`, through the
   * reducer `reduce`: the state Redux holds afterwards.
   */
  function Run<S>(reduce: (S, Action) -> S, s: S, acts: seq<Action>): S
    decreases |acts|
  {
    if acts == [] then s else Run(reduce, reduce(s, acts[0]), acts[1..])
  }

  /** Dispatching one more action continues from where the earlier ones left off. */
  lemma {:induction false} RunSnoc<S>(reduce: (S, Action) -> S, s: S, acts: seq<Action>, a: Action)
    ensures Run(reduce, s, acts + [a]) == reduce(Run(reduce, s, acts), a)
    decreases |acts|
  {
    if acts == [] {
      assert [] + [a] == [a];
    } else {
      assert (acts + [a])[1..] == acts[1..] + [a];
      RunSnoc(reduce, reduce(s, acts[0]), acts[1..], a);
    }
  }

  /** Dispatching two batches is dispatching their concatenation. */
  lemma {:induction false} RunAppend<S>(reduce: (S, Action) -> S, s: S, xs: seq<Action>, ys: seq<Action>)
    ensures Run(reduce, s, xs + ys) == Run(reduce, Run(reduce, s, xs), ys)
    decreases |xs|
  {
    if xs == [] {
      assert [] + ys == ys;
    } else {
      assert (xs + ys)[1..] == xs[1..] + ys;
      RunAppend(reduce, reduce(s, xs[0]), xs[1..], ys);
    }
  }

  /** The two-step unfolding the thunks' proofs use. */
  lemma RunTwo<S>(reduce: (S, Action) -> S, s: S, a: Action, b: Action)
    ensures Run(reduce, s, [a, b]) == reduce(reduce(s, a), b)
  {
    assert [a, b][1..] == [b];
    RunOne(reduce, reduce(s, a), b);
  }

  /** The one-step unfolding. */
  lemma RunOne<S>(reduce: (S, Action) -> S, s: S, a: Action)
    ensures Run(reduce, s, [a]) == reduce(s, a)
  {
    assert [a][1..] == [];
  }
}
