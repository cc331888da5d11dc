/** The genres slice: the genre list, null until first loaded. */
module Genres {
  import opened Common
  import opened Actions

  datatype GenresState = GenresState(data: Option<seq<Genre>>, isLoading: bool, error: Option<string>)

  /** Nothing loaded, not loading, no error. */
  const Initial := GenresState(None, false, None)

  function GenresReduce(s: GenresState, a: Action): GenresState {
    match a
    case SetGenres(gs) => s.(data := Some(gs), isLoading := false, error := None)
    case SetLoading => s.(isLoading := true, error := None)
    case SetError(m) => s.(isLoading := false, error := Some(m))
    case _ => s
  }

  /** `fetchGenresThunk`: SET_LOADING, then the genres or the error. */
  function FetchGenresActions(o: Outcome<seq<Genre>>): seq<Action> {
    [SetLoading, match o case Ok(gs) => SetGenres(gs) case Err(m) => SetError(m)]
  }

  /** SET_GENRES stores the list, ends loading and clears the error. */
  lemma SetGenresEffect(s: GenresState, gs: seq<Genre>)
    ensures GenresReduce(s, SetGenres(gs)) == GenresState(Some(gs), false, None)
  {
  }

  /** SET_LOADING and SET_ERROR keep the list. */
  lemma LoadingAndErrorEffect(s: GenresState, m: string)
    ensures GenresReduce(s, SetLoading) == GenresState(s.data, true, None)
    ensures GenresReduce(s, SetError(m)) == GenresState(s.data, false, Some(m))
  {
  }

  /** Every action this reducer does not declare leaves the slice as it was. */
  lemma OtherActionsIgnored(s: GenresState, a: Action)
    requires WellFormed(a)
    requires !a.SetGenres? && !a.SetLoading? && !a.SetError?
    ensures GenresReduce(s, a) == s
  {
  }

  /** Fetching ends with loading off: the genres with no error, or the old data with the message. */
  lemma FetchGenresEffect(s: GenresState, o: Outcome<seq<Genre>>)
    ensures var r := Run(GenresReduce, s, FetchGenresActions(o));
      && !r.isLoading
      && (o.Ok? ==> r == GenresState(Some(o.value), false, None))
      && (o.Err? ==> r == GenresState(s.data, false, Some(o.message)))
  {
    RunTwo(GenresReduce, s, FetchGenresActions(o)[0], FetchGenresActions(o)[1]);
  }
}
