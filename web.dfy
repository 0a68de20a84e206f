/**
 * Values shared by the server-side modules: optional values, user keys and the
 * parts of an HTTP request that the tracker and the activity log look at.
 */
module Web {

  datatype Option<T> = None | Some(value: T)

  /** A Python value that is either `None` or a string counts as true exactly when it
      is a non-empty string. */
  predicate Truthy(v: Option<string>)
  {
    v.Some? && v.value != ""
  }

  /** Primary key of a `User` row. */
  type UserId = nat

  /** What a Django request exposes to the tracker and to `log_activity`:
      `path`, `method` (here `verb`), `GET.get("q")`, the outcome of `body.decode()` (None when
      decoding fails), the authenticated user (None for an anonymous request) and
      `META.get("REMOTE_ADDR")`. */
  datatype Request = Request(
    path: string,
    verb: string,
    query: Option<string>,
    decodedBody: Option<string>,
    user: Option<UserId>,
    remoteAddr: Option<string>)
}
