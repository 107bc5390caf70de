/**
 * The parts of Foundation's URL values that the authentication flow reads.
 * URL parsing and percent-decoding are not part of this model: a URL is the
 * record of what the platform parser produced.
 */
module Foundation {
  import opened Wrappers

  /** One `URLQueryItem`: a name and an optional value (`name` alone has no value). */
  datatype QueryItem = QueryItem(name: string, value: Option<string>)

  /**
   * An inbound URL. `scheme` is `URL.scheme`. `hostQuery` is what the SSO
   * parser obtains from the host component: the host re-read as the query of
   * `http://localhost/?<host>` and split into items; it is `None` when the URL
   * has no host or the platform cannot split it.
   */
  datatype Url = Url(scheme: Option<string>, hostQuery: Option<seq<QueryItem>>)
}
