/**
 * The two result types of the client: `Response` and `RestError`.
 */
module RestTypes {
  import opened Collaborators

  /** One variant per kind of failure: the URL did not parse, the transport
      refused the request, or reading or writing a body failed. */
  datatype RestError =
    | UrlParseError(parseError: ParseError)
    | HttpRequestError(httpError: HttpError)
    | HttpIoError(ioError: IoError)

  /** A completed exchange: the numeric code, the status it came from, the
      headers as received and the body read in full. */
  datatype Response = Response(code: int, status: StatusCode, headers: Headers, body: string) {

    /** The code is the integer value of the status. */
    predicate Valid() {
      code == status as int
    }

    /** `impl Show for Response`: a response displays as its body alone. */
    function Show(): string {
      body
    }
  }
}
