/**
 * The rules the add-game and edit-game forms check before submitting:
 * `gameSchema`.  The schema reports every failing field, in field order,
 * each with its own message; the form may be submitted only when it
 * reports none.  Whether a release date parses is the browser's
 * `Date.parse`, passed in here as `isDate`.
 */
module Validators {
  import opened Common

  /** A file the user picked for the thumbnail. */
  datatype FileRef = FileRef(name: string)

  datatype GameForm = GameForm(
    title: string,
    description: string,
    releaseDate: string,
    publisher: string,
    thumbnail: Option<FileRef>,
    genres: seq<string>)

  datatype Issue = Issue(field: string, message: string)

  const TitleRequired: string := "Title is required"
  const DescriptionTooShort: string := "Description must be at least 10 characters"
  const InvalidDate: string := "Invalid date format"
  const PublisherRequired: string := "Publisher is required"
  const GenreRequired: string := "At least one genre is required"

  const MinDescription: nat := 10

  /** The issues the schema reports for the form, one per failing field. */
  function Issues(f: GameForm, isDate: string -> bool): seq<Issue> {
    (if |f.title| < 1 then [Issue("title", TitleRequired)] else [])
    + (if |f.description| < MinDescription then [Issue("description", DescriptionTooShort)] else [])
    + (if !isDate(f.releaseDate) then [Issue("release_date", InvalidDate)] else [])
    + (if |f.publisher| < 1 then [Issue("publisher", PublisherRequired)] else [])
    + (if |f.genres| < 1 then [Issue("genres", GenreRequired)] else [])
  }

  /** The form passes: every field rule holds; the thumbnail, being optional, has no rule. */
  predicate Valid(f: GameForm, isDate: string -> bool) {
    && |f.title| >= 1
    && |f.description| >= MinDescription
    && isDate(f.releaseDate)
    && |f.publisher| >= 1
    && f.genres != []
  }

  /** The schema accepts the form exactly when every field rule holds. */
  lemma NoIssuesIffValid(f: GameForm, isDate: string -> bool)
    ensures Issues(f, isDate) == [] <==> Valid(f, isDate)
  {
  }

  /** Each field gets an issue exactly when its own rule fails, with that rule's message. */
  lemma IssuePerField(f: GameForm, isDate: string -> bool)
    ensures Issue("title", TitleRequired) in Issues(f, isDate) <==> f.title == ""
    ensures Issue("description", DescriptionTooShort) in Issues(f, isDate) <==> |f.description| < 10
    ensures Issue("release_date", InvalidDate) in Issues(f, isDate) <==> !isDate(f.releaseDate)
    ensures Issue("publisher", PublisherRequired) in Issues(f, isDate) <==> f.publisher == ""
    ensures Issue("genres", GenreRequired) in Issues(f, isDate) <==> f.genres == []
  {
  }

  /** The thumbnail never causes a failure: no issue names it, and changing it changes nothing. */
  lemma ThumbnailOptional(f: GameForm, isDate: string -> bool, t: Option<FileRef>)
    ensures forall i :: 0 <= i < |Issues(f, isDate)| ==> Issues(f, isDate)[i].field != "thumbnail"
    ensures Issues(f.(thumbnail := t), isDate) == Issues(f, isDate)
  {
  }
}
