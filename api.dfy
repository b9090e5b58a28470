/** The one piece of the frontend's HTTP client with logic: the employer's request header. */
module Api {
  /** The `Authorization` header value `fetchCandidates` sends for a stored token. */
  function BearerHeader(token: string): (h: string)
    ensures |h| == |token| + 7
    ensures h[..7] == "Bearer " && h[7..] == token
  {
    "Bearer " + token
  }
}
