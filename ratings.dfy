/**
 * The rating slice: the ratings of the game on screen, oldest first, and
 * the last error.  Its reducer ignores SET_LOADING and SET_ERROR.
 */
module Ratings {
  import opened Common
  import opened Actions

  datatype RatingState = RatingState(ratings: seq<Rating>, error: Option<string>)

  const Initial := RatingState([], None)

  function RatingReduce(s: RatingState, a: Action): RatingState {
    match a
    case SetRatings(rs) => s.(ratings := rs)
    case AddRating(r) => s.(ratings := s.ratings + [r])
    case SetRatingError(m) => s.(error := Some(m))
    case _ => s
  }

  /** How many of the ratings were given by the user. */
  function CountByUser(ratings: seq<Rating>, userId: string): nat
    decreases |ratings|
  {
    if ratings == [] then 0
    else CountByUser(ratings[..|ratings| - 1], userId) + (if ratings[|ratings| - 1].userId == userId then 1 else 0)
  }

  /** `fetchRatingsThunk`: the list or the error, with no loading step. */
  function FetchRatingsActions(o: Outcome<seq<Rating>>): seq<Action> {
    [match o case Ok(rs) => SetRatings(rs) case Err(m) => SetRatingError(m)]
  }

  /** `postRatingThunk`: the server's rating or the error. */
  function PostRatingActions(o: Outcome<Rating>): seq<Action> {
    [match o case Ok(r) => AddRating(r) case Err(m) => SetRatingError(m)]
  }

  // ---------------------------------------------------------------------

  /** SET_RATINGS replaces the list and leaves the error as it was. */
  lemma SetRatingsEffect(s: RatingState, rs: seq<Rating>)
    ensures RatingReduce(s, SetRatings(rs)) == RatingState(rs, s.error)
  {
  }

  /** ADD_RATING appends at the end; the old list is a prefix. */
  lemma AddRatingEffect(s: RatingState, r: Rating)
    ensures var t := RatingReduce(s, AddRating(r));
      && |t.ratings| == |s.ratings| + 1
      && t.ratings[|s.ratings|] == r
      && t.ratings[..|s.ratings|] == s.ratings
      && t.error == s.error
  {
    var t := RatingReduce(s, AddRating(r));
    assert t.ratings[..|s.ratings|] == s.ratings;
  }

  /** SET_RATING_ERROR records the error and leaves the ratings. */
  lemma SetRatingErrorEffect(s: RatingState, m: string)
    ensures RatingReduce(s, SetRatingError(m)) == RatingState(s.ratings, Some(m))
  {
  }

  /** Every other action, the shared SET_LOADING and SET_ERROR included, leaves the slice as it was. */
  lemma OtherActionsIgnored(s: RatingState, a: Action)
    requires WellFormed(a)
    requires !a.SetRatings? && !a.AddRating? && !a.SetRatingError?
    ensures RatingReduce(s, a) == s
  {
  }

  /** A user's count grows by one per rating of theirs appended. */
  lemma CountAppend(ratings: seq<Rating>, r: Rating, userId: string)
    ensures CountByUser(ratings + [r], userId)
      == CountByUser(ratings, userId) + (if r.userId == userId then 1 else 0)
  {
    assert (ratings + [r])[..|ratings + [r]| - 1] == ratings;
  }

  /**
   * No per-user deduplication: two successful posts by the same user leave
   * two more entries of theirs, whatever was there before.
   */
  lemma PostTwiceKeepsBoth(s: RatingState, r1: Rating, r2: Rating)
    requires r1.userId == r2.userId
    ensures var t := Run(RatingReduce, s, PostRatingActions(Ok(r1)) + PostRatingActions(Ok(r2)));
      && t.ratings == s.ratings + [r1, r2]
      && CountByUser(t.ratings, r1.userId) == CountByUser(s.ratings, r1.userId) + 2
  {
    RunAppend(RatingReduce, s, PostRatingActions(Ok(r1)), PostRatingActions(Ok(r2)));
    PostRatingEffect(s, Ok(r1));
    PostRatingEffect(Run(RatingReduce, s, PostRatingActions(Ok(r1))), Ok(r2));
    assert s.ratings + [r1] + [r2] == s.ratings + [r1, r2];
    CountAppend(s.ratings, r1, r1.userId);
    CountAppend(s.ratings + [r1], r2, r1.userId);
  }

  /** Fetching dispatches exactly one action, with no loading step: the list or the message. */
  lemma FetchRatingsEffect(s: RatingState, o: Outcome<seq<Rating>>)
    ensures |FetchRatingsActions(o)| == 1
    ensures var t := Run(RatingReduce, s, FetchRatingsActions(o));
      && (o.Ok? ==> t == RatingState(o.value, s.error))
      && (o.Err? ==> t == RatingState(s.ratings, Some(o.message)))
  {
    RunOne(RatingReduce, s, FetchRatingsActions(o)[0]);
  }

  /** Posting dispatches exactly one action: the rating appended, or the message with the list kept. */
  lemma PostRatingEffect(s: RatingState, o: Outcome<Rating>)
    ensures |PostRatingActions(o)| == 1
    ensures var t := Run(RatingReduce, s, PostRatingActions(o));
      && (o.Ok? ==> t == RatingState(s.ratings + [o.value], s.error))
      && (o.Err? ==> t == RatingState(s.ratings, Some(o.message)))
  {
    RunOne(RatingReduce, s, PostRatingActions(o)[0]);
  }
}
