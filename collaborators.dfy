/**
 * The vocabulary the client borrows from the `url` and `hyper` crates, and
 * those crates' operations as opaque collaborators. Nothing here is
 * implemented: each operation the client calls is a field of `Env`, a total
 * function that may succeed or fail on any input, so every statement proved
 * about the client holds whatever the collaborators do.
 */
module Collaborators {
  import opened Utf8

  datatype Option<+T> = None | Some(value: T)

  /** A value or an error, as Rust's `Result`. */
  datatype Result<+T, +E> = Ok(value: T) | Err(error: E)

  /** Success or an error, for operations returning `Result<(), E>`. */
  datatype Outcome<+E> = Pass | Fail(error: E)

  /** The request methods the client uses (hyper's `Method`). */
  datatype Method = GET | POST | PUT | PATCH | DELETE

  /** A (key, value) pair of a query string or a form body. */
  type Pair = (string, string)

  /** A parsed URL, known only by its serialisation (the url crate's `Url`). */
  datatype Url = Url(serialization: string)

  /** Error details, carried through without inspection. */
  datatype ParseError = ParseError(detail: string)
  datatype HttpError = HttpError(detail: string)
  datatype IoError = IoError(detail: string)

  /** A parsed media type (hyper's `Mime`). */
  datatype Mime = Mime(toplevel: string, subtype: string, params: seq<Pair>)

  /** hyper's typed header map: one value per header name; setting a header
      replaces any earlier value under the same name. */
  datatype HeaderValue = Length(n: nat) | MediaType(mime: Mime) | Raw(lines: seq<string>)
  type Headers = map<string, HeaderValue>

  const ContentLengthName: string := "Content-Length"
  const ContentTypeName: string := "Content-Type"

  /** hyper's `StatusCode`: a C-like enumeration of the codes 100 to 599 whose
      discriminant is the code itself, so `status as i32` is the code. */
  newtype StatusCode = x: int | 100 <= x < 600 witness 200

  /** A request as hyper holds it: method, target and header map. */
  datatype Request = Request(httpMethod: Method, url: Url, headers: Headers)

  /** A response handle returned by `send`: status line and headers; its body
      is read separately. */
  datatype Incoming = Incoming(status: StatusCode, headers: Headers)

  /** The url crate: `Url::parse`, `Url::set_query_from_pairs` (which replaces
      the query in place) and `form_urlencoded::serialize`. */
  datatype UrlLib = UrlLib(
    parse: string -> Result<Url, ParseError>,
    setQueryFromPairs: (Url, seq<Pair>) -> Url,
    formSerialize: seq<Pair> -> string)

  /** The hyper client, one function per call the client makes:
      `Request::new` (yielding the fresh request's header map),
      `Request::start`, `write` on the started request stream (given every
      byte to write), `send` (given the request and what was written to its
      stream) and `read_to_string` on the response. */
  datatype Transport = Transport(
    open: (Method, Url) -> Result<Headers, HttpError>,
    start: Request -> Outcome<HttpError>,
    write: (Request, seq<byte>) -> Outcome<IoError>,
    send: (Request, seq<byte>) -> Result<Incoming, HttpError>,
    readToString: Incoming -> Result<string, IoError>)

  /** Everything outside the client, including hyper's MIME parser
      (`from_str::<Mime>`). */
  datatype Env = Env(urls: UrlLib, parseMime: string -> Option<Mime>, transport: Transport)

  /** `from_str(content_type).unwrap()` panics unless the content type parses;
      the client's callers must supply one that does. */
  predicate MimeOk(env: Env, contentType: Option<string>) {
    contentType.Some? ==> env.parseMime(contentType.value).Some?
  }
}
