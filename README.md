# Redux state layer of the game review client

This project models the client's Redux state layer. It covers the slice
reducers, the thunks that drive them, the root store that combines the
slices, and the schema that checks the add/edit game form.

- **Actions** (`actions.dfy`). In the client an action is
  `{ type: string, payload?: any }`. Here it is a closed datatype with one
  constructor per distinct `type` string. `Unknown(tag)` stands for every
  other string. An action with a declared string is always its own
  constructor, never `Unknown`: `WellFormed` says so, and `Dispatch` and the
  "ignored" lemmas require it. "SET_LOADING" and "SET_ERROR" are declared
  with the same text in five reducers, so each is a single constructor that
  every one of those reducers reacts to. `Run` folds a reducer over a
  sequence of dispatched actions.
- **Slices**. There is one module per reducer file: `UserGames`, `Auth`,
  `Comments`, `Ratings`, `Games`, `GameDetails` and `Genres`. Each has its
  state datatype, its reducer as a total function, and a function that
  gives the actions each thunk dispatches for a given API result. The
  lemmas state each action's effect and the "nothing else changes" frame.
  Further lemmas cover the list operations (append, prepend, replace by id,
  remove by id) and the end state after each thunk.
- **API results**. The API layer is not modelled. Each thunk instead takes
  an `Outcome`: `Ok(value)` for the resolved response, or `Err(message)`
  for the message of the error that was thrown.
- **Root store** (`root_store.dfy`). `RootState` has the six registered
  slices: auth, games, genres, gameDetails, comment and rating. The
  user-games reducer is not registered in the source, so it is not here.
  `RootReduce` hands each action to every slice. `Store` is a class that
  holds the root state and `localStorage` (a `map<string, string>`). The
  thunks are its methods and dispatch step by step. A ghost log of
  dispatched actions shows that the state always equals the log run from
  the initial state, and every thunk keeps that initial state, so after any
  series of thunks the state is the whole log run from the start. A second
  invariant says the token and user in the
  auth slice always equal what storage holds.
- **Stored user** (`user_json.dfy`). `JSON.stringify`/`JSON.parse` of the
  stored user is modelled as a concrete serializer and parser for the
  `{"userId","email","name"}` object. Its round trip is proved.
- **Form validator** (`validators.dfy`). `gameSchema` becomes a list of
  issues plus a validity predicate. `Date.parse` is passed in as a
  parameter.

The cross-slice effect is shown at the root. The fetch thunks of the
user-games, games, game-details and genres files and the register and login
thunks dispatch SET_LOADING. That turns on the loading flags of auth, games,
genres and game details. The comment and rating thunks and the user-game
create, update and delete thunks dispatch no SET_LOADING. A later success
action clears only its own slice's flag. So after a successful
`fetchGamesThunk`, the auth, genres and game-details slices stay "loading". A SET_ERROR from any thunk writes its
message into all four slices. The user-games actions reach no registered
slice, so at the root a user-games fetch leaves only the SET_LOADING
behind.

The client keeps no pagination, no stored filter, no id de-duplication and
no multipart encoding. `fetchGamesThunk` passes its filters to the request
only. Logout clears storage and state only when the server call does not
throw. Ratings are appended with no per-user merging.

## Model

| member | source | states |
|---|---|---|
| Actions.TypesDistinct | client/src/store/gameDetailsReducer.ts:5-7 | the declared type strings (including "SET_GAMES_DETAILS" next to "SET_GAMES") are pairwise distinct; each known action carries one; a well-formed Unknown action carries none |
| UserJson.RoundTrip | client/src/store/authReducer.ts:57 | parsing the text written for a user yields that same user |
| UserJson.SerializeNonEmpty | client/src/store/authReducer.ts:23 | the stored user text is never "", so rehydration never reads it as absent |
| UserGames.ReplaceByIdAt | client/src/store/userGameReducer.ts:57 | the `map` keeps length and order; position i holds the payload when its id matches, else the old game |
| UserGames.ReplaceByIdAbsent | client/src/store/userGameReducer.ts:57 | an update whose id is absent leaves the list equal to the old one (no insertion) |
| UserGames.ReplaceByIdHits | client/src/store/userGameReducer.ts:57 | after an update every game with that id is the payload, and the payload is present iff the id was |
| UserGames.RemoveByIdMembers | client/src/store/userGameReducer.ts:62 | the `filter` keeps exactly the games with another id; kept plus removed count equals the old length |
| UserGames.RemoveByIdAppend | client/src/store/userGameReducer.ts:62 | removal distributes over concatenation, so kept games stay in their original order |
| UserGames.RemoveByIdAbsent | client/src/store/userGameReducer.ts:62 | deleting an absent id returns the list unchanged |
| UserGames.SetUserGamesEffect | client/src/store/userGameReducer.ts:43-44 | SET_USER_GAMES sets games to the payload and isLoading false; error and selectedGame unchanged |
| UserGames.LoadingAndErrorEffect | client/src/store/userGameReducer.ts:48-51 | SET_LOADING gives isLoading true and error null; SET_ERROR gives isLoading false and the message; games and selectedGame unchanged |
| UserGames.AddGameEffect | client/src/store/userGameReducer.ts:52-53 | ADD_GAME grows the list by one, puts the payload last, keeps the old list as a prefix, changes nothing else |
| UserGames.UpdateGameEffect | client/src/store/userGameReducer.ts:54-58 | UPDATE_GAME replaces games by id in place, keeps length and order, is a no-op for an absent id, and changes nothing else |
| UserGames.DeleteGameEffect | client/src/store/userGameReducer.ts:59-63 | DELETE_GAME keeps exactly the games with another id, leaves none with that id, is a no-op for an absent id, and changes nothing else |
| UserGames.UnknownEffect | client/src/store/userGameReducer.ts:64-65 | a well-formed action of a type this reducer does not declare returns the state unchanged |
| UserGames.FetchUserGamesEffect | client/src/store/userGameReducer.ts:79-87 | SET_LOADING then one result action: loading ends; on success games = response and error null; on failure games kept and error = message |
| UserGames.FetchUserGameByIdEffect | client/src/store/userGameReducer.ts:89-97 | SET_LOADING then one result action: loading ends, games kept; success selects the game, failure records the message |
| UserGames.MutationFailureEffect | client/src/store/userGameReducer.ts:99-124 | a failed create, update or delete dispatches only SET_ERROR, which leaves games and selectedGame unchanged |
| UserGames.CreateUserGameEffect | client/src/store/userGameReducer.ts:99-106 | a successful create appends the server's game at the end |
| UserGames.UpdateUserGameEffect | client/src/store/userGameReducer.ts:108-115 | a successful update replaces by id, keeping length and order |
| UserGames.DeleteUserGameEffect | client/src/store/userGameReducer.ts:117-124 | a successful delete removes the requested id and keeps every other game |
| Auth.ErrorText | client/src/store/authReducer.ts:80 | `message \|\| fallback`: a non-empty message is kept, an empty one gives exactly the fallback, and the result is never empty when the fallback is not |
| Auth.RehydrateFields | client/src/store/authReducer.ts:22-28 | token = stored token; authenticated iff the stored token is truthy; user = parsed stored user or null; not loading, no error |
| Auth.RehydrateEmpty | client/src/store/authReducer.ts:22-28 | empty storage gives an anonymous session |
| Auth.RehydrateAfterSignIn | client/src/store/authReducer.ts:56-57 | the two keys a sign-in writes rehydrate to that same user and token, authenticated exactly when the token is not "" (SET_USER authenticates in memory whatever the token) |
| Auth.RehydrateAfterLogout | client/src/store/authReducer.ts:90-91 | once both keys are removed, rehydration gives an anonymous session |
| Auth.RehydrateEmptyToken | client/src/store/authReducer.ts:24-25 | a stored "" token is kept as the token but isAuthenticated is false |
| Auth.RehydrateConsistent | client/src/store/authReducer.ts:24-25 | rehydrated isAuthenticated agrees with token presence iff the stored token is not "" |
| Auth.SetUserEffect | client/src/store/authReducer.ts:32-33 | SET_USER sets user and token from the payload, isAuthenticated true, isLoading false; error unchanged |
| Auth.LogoutEffect | client/src/store/authReducer.ts:34-35 | LOGOUT nulls user and token and clears isAuthenticated; isLoading and error unchanged |
| Auth.LoadingAndErrorEffect | client/src/store/authReducer.ts:36-39 | SET_LOADING gives isLoading true and error null; SET_ERROR gives isLoading false and the message; nothing else changes |
| Auth.ReducePreservesConsistent | client/src/store/authReducer.ts:30-43 | one action keeps isAuthenticated == (token != null) if a SET_USER carries a token; a well-formed action of an undeclared type changes nothing |
| Auth.SetUserWithoutToken | client/src/store/authReducer.ts:32-33 | a SET_USER without a token breaks that agreement |
| Auth.RunPreservesConsistent | client/src/store/authReducer.ts:30-43 | every action sequence whose SET_USERs carry tokens keeps isAuthenticated == (token != null) |
| Auth.SignInEffect | client/src/store/authReducer.ts:50-83 | register/login end not loading; success yields the response's session and no error; failure keeps the session and records the message or the non-empty fallback |
| Comments.SetCommentsEffect | client/src/store/commentReducer.ts:20-21 | SET_COMMENTS replaces the list; error untouched |
| Comments.AddCommentEffect | client/src/store/commentReducer.ts:22-26 | ADD_COMMENT puts the payload at index 0 with the old list as the tail; length grows by one |
| Comments.SetCommentErrorEffect | client/src/store/commentReducer.ts:27-28 | SET_COMMENT_ERROR sets the error only |
| Comments.OtherActionsIgnored | client/src/store/commentReducer.ts:29-30 | every other well-formed action, SET_LOADING and SET_ERROR included, leaves the slice unchanged |
| Comments.ErrorNeverCleared | client/src/store/commentReducer.ts:18-32 | once the error is set, no sequence of actions resets it to null |
| Comments.FetchCommentsEffect | client/src/store/commentReducer.ts:40-47 | exactly one action: the list replaces the comments, or the message is recorded with comments kept |
| Comments.PostCommentEffect | client/src/store/commentReducer.ts:49-62 | exactly one action: a reply with an id and a User is prepended; any other reply records "Invalid comment structure."; a failure records its message; comments kept in both error cases |
| Ratings.SetRatingsEffect | client/src/store/ratingReducer.ts:20-21 | SET_RATINGS replaces the list; error untouched |
| Ratings.AddRatingEffect | client/src/store/ratingReducer.ts:22-23 | ADD_RATING appends at the end, old list a prefix, error untouched |
| Ratings.SetRatingErrorEffect | client/src/store/ratingReducer.ts:24-25 | SET_RATING_ERROR sets the error only |
| Ratings.OtherActionsIgnored | client/src/store/ratingReducer.ts:26-27 | every other well-formed action, SET_LOADING and SET_ERROR included, leaves the slice unchanged |
| Ratings.CountAppend | client/src/store/ratingReducer.ts:22-23 | appending a rating raises its user's count by one and leaves every other user's count unchanged |
| Ratings.PostTwiceKeepsBoth | client/src/store/ratingReducer.ts:22-23 | two successful posts by one user append both, and that user's count grows by two (no dedup) |
| Ratings.FetchRatingsEffect | client/src/store/ratingReducer.ts:37-44 | exactly one action and no loading action: the list, or the message with ratings kept |
| Ratings.PostRatingEffect | client/src/store/ratingReducer.ts:46-53 | exactly one action: the rating appended, or the message with ratings kept |
| Games.SetGamesEffect | client/src/store/gamesReducer.ts:26-27 | SET_GAMES sets games, isLoading false, error null |
| Games.LoadingAndErrorEffect | client/src/store/gamesReducer.ts:28-31 | SET_LOADING gives loading and no error; SET_ERROR gives not loading and the message; games kept |
| Games.OtherActionsIgnored | client/src/store/gamesReducer.ts:32-33 | a well-formed action of an undeclared type leaves the slice unchanged |
| Games.FetchGamesEffect | client/src/store/gamesReducer.ts:43-53 | always ends not loading; success = response with no error; failure = old games with the message |
| GameDetails.SetGameDetailsEffect | client/src/store/gameDetailsReducer.ts:22-23 | the success type is "SET_GAMES_DETAILS"; it sets data, isLoadingGenre false, error null |
| GameDetails.LoadingAndErrorEffect | client/src/store/gameDetailsReducer.ts:24-27 | SET_LOADING sets isLoadingGenre and clears the error; SET_ERROR clears it and sets the message; stale data kept |
| GameDetails.OtherActionsIgnored | client/src/store/gameDetailsReducer.ts:28-29 | a well-formed action of an undeclared type leaves the slice unchanged |
| GameDetails.FetchGameDetailsEffect | client/src/store/gameDetailsReducer.ts:39-47 | ends with isLoadingGenre false; the game with no error, or the old data with the message |
| Genres.SetGenresEffect | client/src/store/genresReducer.ts:22-23 | SET_GENRES sets data, isLoading false, error null |
| Genres.LoadingAndErrorEffect | client/src/store/genresReducer.ts:24-27 | SET_LOADING sets loading and clears the error; SET_ERROR clears loading and sets the message; data kept |
| Genres.OtherActionsIgnored | client/src/store/genresReducer.ts:28-29 | a well-formed action of an undeclared type leaves the slice unchanged |
| Genres.FetchGenresEffect | client/src/store/genresReducer.ts:39-48 | ends not loading; the genres with no error, or the old data with the message |
| RootStore.StartsEmpty | client/src/store/gamesReducer.ts:17-21 | the games slice starts as no games, not loading, no error; likewise genres and game details (genresReducer.ts:14-18, gameDetailsReducer.ts:14-18: no data, not loading, no error) and comments and ratings (commentReducer.ts:13-16, ratingReducer.ts:13-16: empty list, no error); auth is the rehydrated state |
| RootStore.RunBySlice | client/src/store/store.ts:31-40 | after any action sequence each slice equals its own reducer run from its own start: no slice reads another |
| RootStore.SetLoadingEverywhere | client/src/store/store.ts:33-36 | one SET_LOADING sets the loading flags of auth, games, genres and gameDetails and clears their errors; comment and rating unchanged |
| RootStore.SetErrorEverywhere | client/src/store/store.ts:33-36 | one SET_ERROR writes the same message into auth, games, genres and gameDetails; comment and rating unchanged |
| RootStore.IgnoredRunIsNoop | client/src/store/store.ts:32-39 | actions whose type no registered slice declares (an unknown tag, or a user-games action) leave the whole root state unchanged |
| RootStore.FetchGamesAcrossSlices | client/src/store/gamesReducer.ts:43-53 | at the root a successful games fetch leaves auth, genres and gameDetails loading; a failure puts its message in all four |
| RootStore.FetchUserGamesAtRoot | client/src/store/userGameReducer.ts:79-87 | at the root a successful user-games fetch amounts to a bare SET_LOADING; a failure to SET_LOADING then SET_ERROR |
| RootStore.UserGameMutationsAtRoot | client/src/store/userGameReducer.ts:99-124 | at the root a successful create, update or delete changes nothing |
| RootStore.Store.constructor | client/src/store/authReducer.ts:22-28 | the store starts with auth rehydrated from storage and the other slices empty; the session mirrors storage |
| RootStore.Store.Dispatch | client/src/store/store.ts:31-40 | each dispatch of a well-formed action applies the combined reducer and is logged; the state stays the log run from the start |
| RootStore.Store.FetchUserGames | client/src/store/userGameReducer.ts:79-87 | dispatches SET_LOADING then SET_USER_GAMES or SET_ERROR into the root; storage untouched |
| RootStore.Store.FetchUserGameById | client/src/store/userGameReducer.ts:89-97 | dispatches SET_LOADING then SET_USER_GAME or SET_ERROR into the root |
| RootStore.Store.CreateUserGame | client/src/store/userGameReducer.ts:99-106 | dispatches exactly ADD_GAME or SET_ERROR, with no loading step |
| RootStore.Store.UpdateUserGame | client/src/store/userGameReducer.ts:108-115 | dispatches exactly UPDATE_GAME or SET_ERROR, with no loading step |
| RootStore.Store.DeleteUserGame | client/src/store/userGameReducer.ts:117-124 | dispatches exactly DELETE_GAME of the requested id or SET_ERROR |
| RootStore.Store.SignIn | client/src/store/authReducer.ts:50-83 | SET_LOADING; on success writes token and serialized user, then SET_USER, returns true; on failure storage untouched, SET_ERROR, returns false; session mirrors storage |
| RootStore.Store.RegisterUser | client/src/store/authReducer.ts:50-66 | sign-in with the fallback "Registration failed" |
| RootStore.Store.LoginUser | client/src/store/authReducer.ts:68-83 | sign-in with the fallback "Login failed" |
| RootStore.Store.LogoutUser | client/src/store/authReducer.ts:85-97 | no truthy stored token or a failed call: storage and state unchanged; otherwise both keys removed and LOGOUT dispatched |
| RootStore.Store.FetchComments | client/src/store/commentReducer.ts:40-47 | dispatches exactly SET_COMMENTS or SET_COMMENT_ERROR |
| RootStore.Store.PostComment | client/src/store/commentReducer.ts:49-62 | dispatches exactly ADD_COMMENT for a well-shaped reply, else SET_COMMENT_ERROR |
| RootStore.Store.FetchRatings | client/src/store/ratingReducer.ts:37-44 | dispatches exactly SET_RATINGS or SET_RATING_ERROR |
| RootStore.Store.PostRating | client/src/store/ratingReducer.ts:46-53 | dispatches exactly ADD_RATING or SET_RATING_ERROR |
| RootStore.Store.FetchGames | client/src/store/gamesReducer.ts:43-53 | dispatches SET_LOADING then SET_GAMES or SET_ERROR |
| RootStore.Store.FetchGameDetails | client/src/store/gameDetailsReducer.ts:39-47 | dispatches SET_LOADING then SET_GAMES_DETAILS or SET_ERROR |
| RootStore.Store.FetchGenres | client/src/store/genresReducer.ts:39-48 | dispatches SET_LOADING then SET_GENRES or SET_ERROR |
| Validators.NoIssuesIffValid | client/src/validatores/validatores.tsx:3-10 | the schema reports no issue iff every field rule holds |
| Validators.IssuePerField | client/src/validatores/validatores.tsx:4-9 | each field gets its own message exactly when its rule fails: title empty, description under 10, date not parsing, publisher empty, genres empty |
| Validators.ThumbnailOptional | client/src/validatores/validatores.tsx:8 | no issue names the thumbnail, and changing it never changes the issues |

## Left out

- The API layer (`client/src/api/*.ts`) is network I/O. Each thunk takes the API call's result as an `Outcome`. The request parameters (tokens, filters, ids, form data) are therefore not thunk inputs, except that the delete thunk's id is used in the action it dispatches. How the API layer builds URLs and error messages is not modelled. That includes `fetchGameDetailsThunk` passing `(token, gameId)` to a one-parameter API function.
- `logoutUser` does not check the response status, so only a thrown network error counts as failure. In the model, `Err` means exactly that case.
- Components, pages and layouts are rendering and routing, so they are not modelled. Their debounce timers and toast timeouts are timing, not state.
- `Promise.all` runs some thunks concurrently. Each thunk is modelled as one sequential call, and interleavings of their dispatches are not modelled.
- `console.log` and `console.error` calls are dropped.
- `JSON.parse` in general is not modelled. The model parses only the layout the client itself writes. A stored user text that `JSON.parse` accepts in another layout (`null`, other key order, whitespace, extra keys, a numeric `userId`) counts as unparseable. In the other direction, the model's string reader is more lenient than `JSON.parse`: it accepts any character after a backslash (an invalid escape such as `\q`) and raw control characters inside a string, where the client would throw. Control characters are not escaped when writing.
- RootStore.Store.constructor: requires that the stored user, when truthy, is in the layout `UserJson.Serialize` writes. A store whose storage holds a user in any other layout, which the client may load or reject, is not modelled.
- `Date.parse` is the parameter `isDate`.
- `min(n)` in the schema counts UTF-16 code units. The model counts Unicode scalar values, so strings with characters outside the Basic Multilingual Plane are measured differently.
- Validators.ThumbnailOptional: a thumbnail value is always a file in the model. The schema's `instanceof(File)` rejection of a non-file value is not modelled.
- Payloads are typed. `any` payloads with other shapes are not represented, except a SET_USER whose token is missing. The payload of SET_USER_GAME is always a game. The API's `data[0]` of an empty array (`undefined`) is not represented.
- A comment id is modelled as a string, and the empty string stands for a falsy id. A numeric id of 0 is not distinguished from it.
- Game objects carry only the fields the client uses. Timestamps, popularity and trending scores are omitted because no reducer reads them. The display formatting of `avg_user_rating` is view-only.
