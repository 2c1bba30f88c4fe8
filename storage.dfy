/**
 * The start-up load of one collection document (`downloadJsonFromGCS`). The
 * blob store and the JSON parser are foreign; what is kept is the decision the
 * loader makes on each possible outcome of the fetch.
 */
module Storage {
  import opened Wrappers

  /** What a fetch of one document can come back with. */
  datatype Download<T> =
    | Absent                           // the object does not exist in the bucket
    | Fetched(parsed: Option<seq<T>>)  // downloaded; `None` when parsing the content threw
    | FetchFailed                      // the existence check or the download threw

  /**
   * The collection the loader hands back. It never fails: a missing document, a
   * failed fetch and a document that does not parse all give the empty
   * collection, and only a parsed document gives its content.
   */
  function LoadCollection<T>(d: Download<T>): (r: seq<T>)
    ensures d.Fetched? && d.parsed.Some? ==> r == d.parsed.value
    ensures !(d.Fetched? && d.parsed.Some?) ==> r == []
  {
    match d
    case Absent => []
    case Fetched(parsed) => parsed.GetOr([])
    case FetchFailed => []
  }

  /** A non-empty collection can only have come from a stored, well-formed document. */
  lemma NonEmptyLoadWasStored<T>(d: Download<T>)
    requires LoadCollection(d) != []
    ensures d == Fetched(Some(LoadCollection(d)))
  {
  }

  /**
   * The document that a whole-collection upload leaves in the bucket, under the
   * assumption that serialising and parsing JSON are inverse.
   */
  function Persisted<T>(s: seq<T>): Download<T> {
    Fetched(Some(s))
  }

  /** Uploading a collection and loading it again gives back the same collection. */
  lemma LoadAfterPersist<T>(s: seq<T>)
    ensures LoadCollection(Persisted(s)) == s
  {
  }
}
