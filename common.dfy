/**
 * Entities shared by the Redux slices of the game review client, and the two
 * wrapper types the model uses in place of `null` and of a rejected promise.
 */
module Common {

  /** `T | null` in the client's state. */
  datatype Option<+T> = None | Some(value: T)

  /**
   * What one call into the API layer produced: the resolved value, or the
   * `message` of the `Error` it threw.  The thunks receive this as an input
   * instead of performing the `fetch` themselves.
   */
  datatype Outcome<+T> = Ok(value: T) | Err(message: string)

  datatype Genre = Genre(id: string, name: string)

  /** A game as the server returns it; the reducers look only at `id`. */
  datatype Game = Game(
    id: string,
    title: string,
    description: string,
    releaseDate: string,
    publisher: string,
    thumbnail: string,
    avgUserRating: string,
    createdBy: string,
    genres: seq<Genre>)

  /** The signed-in user kept by the auth slice and in storage. */
  datatype User = User(userId: string, email: string, name: string)

  /** The author object the server nests in a comment as `User`. */
  datatype Author = Author(name: string)

  /**
   * A comment as the server returns it.  An empty `id` stands for a missing
   * or falsy id, and `author == None` for a missing `User` field.
   */
  datatype Comment = Comment(id: string, userId: string, author: Option<Author>, text: string)

  datatype Rating = Rating(id: string, userId: string, gameId: string, rating: int)

  /** The `{ user, token }` body of a successful login or registration. */
  datatype Session = Session(user: User, token: string)
}
