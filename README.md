# rest_client: a verified model of the request pipeline

`rest_client` is a small Rust helper library that makes single-shot, blocking HTTP requests. It offers
GET, POST, PUT, PATCH and DELETE, each in a plain form and a `_with_params` form. Every entry point
reduces to `RestClient::new`, which runs a fixed sequence of phases:

1. parse the URL string;
2. replace its query with the parameters, if any;
3. build a hyper request;
4. set Content-Length (always, to 0 when there is no body) and Content-Type (only when given);
5. start the request;
6. write the body to the request stream, if there is one;
7. send;
8. read the response body as text;
9. build a `Response`.

Each phase that can fail returns early with one variant of `RestError`.

The model is written in Dafny. All the code it uses from other libraries is passed in as an `Env`
value: the url crate's parser, query setter and form serialiser, hyper's MIME parser, and hyper's
request, start, write, send and read operations. Each of these is a total function that may succeed
or fail on any input. Every property below therefore holds for any behaviour of these libraries.

- `utf8.dfy` (`Utf8`): Rust strings as UTF-8 bytes. `str::len` and `str::as_bytes` are the length
  and contents of `Encode(s)`.
- `collaborators.dfy` (`Collaborators`): the url and hyper vocabulary and the `Env` of collaborators.
- `rest_types.dfy` (`RestTypes`): `RestError` and `Response`, including `Show`, which displays only
  the body.
- `pipeline.dfy` (`Pipeline`): the reference model, a state machine written as functions.
  - `Step` runs one phase and records each collaborator call it makes as an `Event`.
  - `Run` drives a call to `Finished` or `Failed`.
  - The lemmas on whole runs are proved by induction on how many steps remain.
- `properties.dfy` (`Properties`): what every call does, stated on `Execute` (a run from the start).
- `client.dfy` (`RestClient`): the library itself.
  - `New` is an imperative method with early returns. It holds a mutable `url`, a request whose header
    map is updated one header at a time, and a stream of bytes written.
  - Its result and its ghost `trace` of collaborator calls are proved equal to those of `Execute`.
  - The ten public entry points, `Pstar` and `PstarWithParams` are methods that delegate, as in the
    source. Lemmas state what the calls they make do.

## Model

| member | source | states |
|---|---|---|
| `Utf8.EncodeChar` | src/lib.rs:115 | A character takes 1 to 4 bytes. It takes exactly one byte iff it is ASCII, and that byte is the character. The lead byte announces the width, and every later byte is a continuation byte. |
| `Utf8.Encode` | src/lib.rs:93 | The byte length of a string (`str::len`) is between its character count and four times that count. It is zero only for the empty string. |
| `Utf8.AsciiEncoding` | src/lib.rs:115 | An ASCII string's bytes are its characters, one each. |
| `Utf8.SameLengthOnlyAscii` | src/lib.rs:93 | A string whose byte length equals its character count is ASCII. |
| `Pipeline.ComposeHeaders` | src/lib.rs:91-106 | Content-Length is always present: the body's byte length, or exactly 0 with no body. Content-Type is present iff the caller gave one or the fresh request already had one, and a given type is the parsed MIME value. All other headers are left as the fresh request had them. |
| `Pipeline.Step` | src/lib.rs:72-139 | Each phase moves strictly closer to the end, so no stage is visited twice. |
| `Pipeline.Run` | src/lib.rs:72-139 | Every call ends in exactly one of a finished response or a failure. |
| `Pipeline.RunFollowsPlan` | src/lib.rs:72-139 | A run's collaborator calls follow the remaining phases in order. Every call but the last succeeded, so nothing runs after a failure. A finished run has made every remaining call. |
| `Pipeline.RunConforms` | src/lib.rs:78-129 | Each collaborator call gets the expected arguments: the URL string, the given parameters, the composed request, the body's bytes, and for the read the handle `send` returned for that request. The final stage is consistent, and a response's code is its status's value. |
| `Pipeline.RunConcludes` | src/lib.rs:86-139 | A run makes at least one call. It fails exactly when its last call failed, with that call's error as `Failure` maps it. A response comes from a successful read. |
| `Properties.TraceFollowsPlan` | src/lib.rs:72-139 | The phases attempted are a nonempty prefix of the fixed plan: parse, [query], build, start, [write], send, read. No phase is attempted twice. Every call but the last succeeded, and the result is an error exactly when the last call failed. A call that returns `Ok` has run the whole plan. |
| `Properties.UrlParseFailureStopsTheCall` | src/lib.rs:73-76 | The result is `UrlParseError` iff the URL does not parse. In that case the result carries the parser's error, and the only call made is the parse. |
| `Properties.ErrorNamesFailingPhase` | src/lib.rs:86-130 | `UrlParseError` means the parse phase failed. `HttpRequestError` means building, starting or sending failed, never writing or reading. `HttpIoError` means writing or reading failed. Conversely, a failing call is the last one, and the result is its error: a failing `Request::new`, `start` or `send` gives `HttpRequestError`, a failing `write` or `read_to_string` gives `HttpIoError`. Setting the query never fails, and `Ok` follows a read. |
| `Properties.QuerySetOnlyWithParams` | src/lib.rs:78-84 | The query setter is called only with parameters. It is called once, right after parsing, on the parsed URL, with the pairs as given. The request goes to the URL with its query set, or to the parsed URL unmodified when there are no parameters. |
| `Properties.ContentLengthAlwaysSet` | src/lib.rs:91-100 | Every request the transport sees has Content-Length: the body's byte length, or 0 with no body. At send time it equals the number of bytes written to the stream. |
| `Properties.ContentTypeOnlyWhenGiven` | src/lib.rs:102-106 | The started request has Content-Type iff one was given or the fresh request had one. A given type is the parsed MIME value, and no default is invented. Other headers are unchanged. |
| `Properties.BodyWrittenOnlyWhenPresent` | src/lib.rs:113-120 | A write happens only when there is a body, and it writes exactly the body's bytes. With no body nothing is written. The stream at send time holds the body's bytes. |
| `Properties.WriteComesRightBeforeSend` | src/lib.rs:113-125 | With a body, the call just before the send writes the body's bytes to the same request. |
| `Properties.ResponseIsFaithful` | src/lib.rs:122-139 | On `Ok`, the last two calls were a `send` and a successful read of the handle that `send` returned. The response's body is exactly the text read, its status and headers are that handle's, unchanged, its code is the status's integer value, and `Show` displays the body. |
| `RestClient.New` | src/lib.rs:72-140 | The result and the ghost trace of collaborator calls equal those of the reference pipeline `Execute` for the same arguments. |
| `RestClient.Exchange` | src/lib.rs:108-139 | Starting, writing, sending and reading a composed request give the reference pipeline's result and calls from the `Composed` stage. |
| `RestClient.Pstar` | src/lib.rs:68-70 | Is `new` with no parameters and with the body and content type passed through. |
| `RestClient.PstarWithParams` | src/lib.rs:62-66 | Is `new` with the form serialisation of the pairs as body and `application/x-www-form-urlencoded` as content type. |
| `RestClient.Get` | src/lib.rs:22-24 | Is `new(GET, url)` with no parameters, body or content type. |
| `RestClient.GetWithParams` | src/lib.rs:26-28 | Is `new(GET, url)` with the parameters, and no body or content type. |
| `RestClient.PostWithParams` | src/lib.rs:30-32 | Is the form-encoded POST of `pstar_with_params`. |
| `RestClient.Post` | src/lib.rs:34-36 | Is the raw POST of `pstar`. |
| `RestClient.PatchWithParams` | src/lib.rs:38-40 | Is the form-encoded PATCH. |
| `RestClient.Patch` | src/lib.rs:42-44 | Is the raw PATCH. |
| `RestClient.PutWithParams` | src/lib.rs:46-48 | Is the form-encoded PUT. |
| `RestClient.Put` | src/lib.rs:50-52 | Is the raw PUT. |
| `RestClient.Delete` | src/lib.rs:54-56 | Is `new(DELETE, url)` with no parameters, body or content type. |
| `RestClient.DeleteWithParams` | src/lib.rs:58-60 | Is `new(DELETE, url)` with the parameters, and no body or content type. |
| `RestClient.BodylessCallsSendNoBody` | src/lib.rs:22-60 | The GET and DELETE calls write nothing. They send an empty stream with Content-Length 0, and leave Content-Type as the fresh request had it. |
| `RestClient.FormCallsAreUrlEncoded` | src/lib.rs:62-66 | The `_with_params` POST, PUT and PATCH calls send the form serialisation as the body, with Content-Type `application/x-www-form-urlencoded` and the matching Content-Length. They never touch the URL's query. |
| `RestClient.RawCallsPassThrough` | src/lib.rs:68-70 | Raw POST, PUT and PATCH send the body's bytes and the given content type unchanged, with no query parameters. |
| `RestClient.PostJsonExample` | src/lib.rs:91-93 | Posting `{"x":1}` as `application/json` sets Content-Length 7 and that content type, and writes the 7 bytes of the text. |

The body `{"x":1}` is 7 bytes long and the code sends `body.len()`, so `RestClient.PostJsonExample`
proves Content-Length 7.

## Left out

- The hyper transport is not modelled beyond what each call returns: sockets, DNS, TLS, HTTP framing
  and redirects. Each of `Request::new`, `start`, `write`, `send` and `read_to_string` is an opaque
  function of its arguments that succeeds or fails.
- `Request::new` is modelled only as the header map of the fresh request it returns. Which headers
  hyper puts there is not modelled; the header properties are stated relative to that map.
- `Url::parse`, `set_query_from_pairs` and `form_urlencoded::serialize` from the url crate are opaque
  functions. URL grammar, percent-encoding and how duplicate keys are handled in the query string are
  not modelled.
- `from_str(content_type).unwrap()` is modelled as the precondition `MimeOk`: the content type must
  parse. The panic itself is not modelled, and neither is the fact that it would happen after
  `Request::new` had succeeded.
- Header names are plain strings: hyper's case-insensitive matching and its typed headers other than
  Content-Length and Content-Type are not modelled. `StatusCode` is its numeric value in 100..599.
- `RestClient.New`: lines 108-139 of `RestClient::new` are the separate method `RestClient.Exchange`.
  This keeps each proof within the verifier's limits; the sequence of operations and the early
  returns are unchanged.
- Cookies exist only as a TODO in the source and are not modelled. The source's two tests fetch a live
  URL and inspect its JSON body, and are not modelled.
