/** The one piece of HTTP behaviour both API clients rely on. */
module Http {

  /** `Response.raise_for_status` raises for client and server errors, status 400 to 599. */
  predicate Raises(status: int) {
    400 <= status < 600
  }
}
