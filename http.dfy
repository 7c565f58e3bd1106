/**
 * What an axios `post` produces, as the services see it: a response with its
 * status, body and (lower-cased) headers, or a failure with no response at
 * all (timeout, refused connection). axios throws for every status outside
 * 200..299, carrying the response on the error.
 */
module Http {
  import opened Wrappers
  import opened Json
  import Text

  type Headers = map<string, string>

  datatype PostResult =
    | Response(status: int, data: Option<Json>, headers: Headers)
    | NoResponse(error: string)

  /** A present, non-empty string argument (a truthy `string | undefined`). */
  predicate TruthyText(s: Option<string>) {
    s.Some? && s.value != ""
  }

  /** axios's default `validateStatus`: the promise resolves for 2xx replies only. */
  predicate Resolves(r: PostResult) {
    r.Response? && 200 <= r.status < 300
  }

  /** `String(e)` for the error axios throws: its own text, or the status message for a rejected reply. */
  function ErrorString(r: PostResult): (s: string)
    requires !Resolves(r)
    ensures r.NoResponse? ==> s == r.error
  {
    match r
    case NoResponse(e) => e
    case Response(status, _, _) =>
      "AxiosError: Request failed with status code " + Text.IntToDecimal(status)
  }
}
