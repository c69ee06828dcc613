/**
 * The HTTP exchanges of the annotator, reduced to what the modelled code
 * looks at: the status code and, for a 200, the decoded JSON body.
 */
module Http {
  import opened Json

  /** `result.status_code` and `result.json()`. */
  datatype Response = Response(status: int, body: Json)

  /**
   * `sess.get(urljoin(baseUrl, path))` for one session and base URL: the
   * same path always gets the same answer.
   */
  type Session = string -> Response
}
