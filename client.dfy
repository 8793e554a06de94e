/**
 * `RestClient`: the blocking, one-request-per-call entry points. `New` runs
 * the pipeline imperatively, phase after phase with an early return at each
 * failure; every public entry point reduces to it. The collaborators are
 * passed in as `env`.
 */
module RestClient {
  import opened Utf8
  import opened Collaborators
  import opened RestTypes
  import opened Pipeline
  import opened Properties

  const FormUrlEncoded: string := "application/x-www-form-urlencoded"

  /** `RestClient::new`: parse the URL, replace its query with the parameters
      if any, build the request, set Content-Length and Content-Type, start
      it, write the body if any, send it and read the response body. Its
      result and the collaborator calls it makes are those of the reference
      pipeline `Execute`. */
  method New(env: Env, httpMethod: Method, urlStr: string, urlParams: Option<seq<Pair>>,
             body: Option<string>, contentType: Option<string>)
    returns (r: Result<Response, RestError>, ghost trace: seq<Event>)
    requires MimeOk(env, contentType)
    ensures r == Reply(Execute(env, Call(httpMethod, urlStr, urlParams, body, contentType)))
    ensures trace == Execute(env, Call(httpMethod, urlStr, urlParams, body, contentType)).trace
  {
    ghost var c := Call(httpMethod, urlStr, urlParams, body, contentType);
    trace := [];
    assert Reaches(env, c, Built, Built, trace);

    var parsed := env.urls.parse(urlStr);
    if parsed.Err? {
      r := Err(UrlParseError(parsed.error));
      Advance(env, c, Built, Built, trace, Failed(r.error), [ParseUrl(urlStr)]);
      trace := trace + [ParseUrl(urlStr)];
      Finish(env, c, Built, Failed(r.error), trace);
      return;
    }
    var url := parsed.value;
    Advance(env, c, Built, Built, trace, UrlParsed(url), [ParseUrl(urlStr)]);
    trace := trace + [ParseUrl(urlStr)];

    // The query is replaced in place.
    if urlParams.Some? {
      ghost var base := url;
      url := env.urls.setQueryFromPairs(url, urlParams.value);
      Advance(env, c, Built, UrlParsed(base), trace, UrlAssembled(url), [SetQuery(base, urlParams.value)]);
      trace := trace + [SetQuery(base, urlParams.value)];
    } else {
      Advance(env, c, Built, UrlParsed(url), trace, UrlAssembled(url), []);
      assert trace + [] == trace;
    }

    var made := env.transport.open(httpMethod, url);
    if made.Err? {
      r := Err(HttpRequestError(made.error));
      Advance(env, c, Built, UrlAssembled(url), trace, Failed(r.error), [NewRequest(httpMethod, url)]);
      trace := trace + [NewRequest(httpMethod, url)];
      Finish(env, c, Built, Failed(r.error), trace);
      return;
    }
    var req := Request(httpMethod, url, made.value);
    Advance(env, c, Built, UrlAssembled(url), trace, Opened(req), [NewRequest(httpMethod, url)]);
    trace := trace + [NewRequest(httpMethod, url)];
    ghost var initial := req;

    // Content-Length is set even without a body, so that the transport does
    // not fall back to chunked transfer coding.
    if body.Some? {
      req := req.(headers := req.headers[ContentLengthName := Length(|Encode(body.value)|)]);
    } else {
      req := req.(headers := req.headers[ContentLengthName := Length(0)]);
    }
    if contentType.Some? {
      var mime := env.parseMime(contentType.value);
      req := req.(headers := req.headers[ContentTypeName := MediaType(mime.value)]);
    }
    Advance(env, c, Built, Opened(initial), trace, Composed(req), []);
    assert trace + [] == trace;

    ghost var rest: seq<Event>;
    r, rest := Exchange(env, req, body, c);
    trace := trace + rest;
  }

  /** The second half of `RestClient::new`: start the composed request, write
      the body to its stream if there is one, send it, read the response body
      and build the `Response`. Its result and calls are those of the
      reference pipeline from the stage `Composed(req)`. */
  method Exchange(env: Env, req: Request, body: Option<string>, ghost c: Call)
    returns (r: Result<Response, RestError>, ghost trace: seq<Event>)
    requires MimeOk(env, c.contentType)
    requires c.body == body
    ensures r == Reply(Run(env, c, Composed(req)))
    ensures trace == Run(env, c, Composed(req)).trace
  {
    trace := [];
    assert Reaches(env, c, Composed(req), Composed(req), trace);
    var started := env.transport.start(req);
    if started.Fail? {
      r := Err(HttpRequestError(started.error));
      Advance(env, c, Composed(req), Composed(req), trace, Failed(r.error), [Start(req)]);
      trace := trace + [Start(req)];
      Finish(env, c, Composed(req), Failed(r.error), trace);
      return;
    }
    Advance(env, c, Composed(req), Composed(req), trace, Started(req), [Start(req)]);
    trace := trace + [Start(req)];

    // What has been written to the started request's stream.
    var written: seq<byte> := [];
    if body.Some? {
      var bytes := Encode(body.value);
      var wrote := env.transport.write(req, bytes);
      if wrote.Fail? {
        r := Err(HttpIoError(wrote.error));
        Advance(env, c, Composed(req), Started(req), trace, Failed(r.error), [Write(req, bytes)]);
        trace := trace + [Write(req, bytes)];
        Finish(env, c, Composed(req), Failed(r.error), trace);
        return;
      }
      written := written + bytes;
      assert written == bytes;
      Advance(env, c, Composed(req), Started(req), trace, BodyWritten(req, written), [Write(req, bytes)]);
      trace := trace + [Write(req, bytes)];
    } else {
      Advance(env, c, Composed(req), Started(req), trace, BodyWritten(req, written), []);
      assert trace + [] == trace;
    }

    var sent := env.transport.send(req, written);
    if sent.Err? {
      r := Err(HttpRequestError(sent.error));
      Advance(env, c, Composed(req), BodyWritten(req, written), trace, Failed(r.error), [Send(req, written)]);
      trace := trace + [Send(req, written)];
      Finish(env, c, Composed(req), Failed(r.error), trace);
      return;
    }
    var incoming := sent.value;
    Advance(env, c, Composed(req), BodyWritten(req, written), trace, ResponseReceived(incoming), [Send(req, written)]);
    trace := trace + [Send(req, written)];

    var text := env.transport.readToString(incoming);
    if text.Err? {
      r := Err(HttpIoError(text.error));
      Advance(env, c, Composed(req), ResponseReceived(incoming), trace, Failed(r.error), [ReadBody(incoming)]);
      trace := trace + [ReadBody(incoming)];
      Finish(env, c, Composed(req), Failed(r.error), trace);
      return;
    }
    var response := Response(incoming.status as int, incoming.status, incoming.headers, text.value);
    r := Ok(response);
    Advance(env, c, Composed(req), ResponseReceived(incoming), trace, Finished(response), [ReadBody(incoming)]);
    trace := trace + [ReadBody(incoming)];
    Finish(env, c, Composed(req), Finished(response), trace);
  }

  /** `pstar`: a raw-body request, body and content type passed through. */
  method Pstar(env: Env, httpMethod: Method, urlStr: string, body: string, contentType: string)
    returns (r: Result<Response, RestError>, ghost trace: seq<Event>)
    requires MimeOk(env, Some(contentType))
    ensures r == Reply(Execute(env, Call(httpMethod, urlStr, None, Some(body), Some(contentType))))
    ensures trace == Execute(env, Call(httpMethod, urlStr, None, Some(body), Some(contentType))).trace
  {
    r, trace := New(env, httpMethod, urlStr, None, Some(body), Some(contentType));
  }

  /** `pstar_with_params`: the pairs form-encoded into the body, sent as
      application/x-www-form-urlencoded. */
  method PstarWithParams(env: Env, httpMethod: Method, urlStr: string, params: seq<Pair>)
    returns (r: Result<Response, RestError>, ghost trace: seq<Event>)
    requires MimeOk(env, Some(FormUrlEncoded))
    ensures r == Reply(Execute(env, Call(httpMethod, urlStr, None, Some(env.urls.formSerialize(params)), Some(FormUrlEncoded))))
    ensures trace == Execute(env, Call(httpMethod, urlStr, None, Some(env.urls.formSerialize(params)), Some(FormUrlEncoded))).trace
  {
    var postBody := env.urls.formSerialize(params);
    r, trace := Pstar(env, httpMethod, urlStr, postBody, FormUrlEncoded);
  }

  method Get(env: Env, urlStr: string) returns (r: Result<Response, RestError>, ghost trace: seq<Event>)
    ensures r == Reply(Execute(env, Call(GET, urlStr, None, None, None)))
    ensures trace == Execute(env, Call(GET, urlStr, None, None, None)).trace
  {
    r, trace := New(env, GET, urlStr, None, None, None);
  }

  method GetWithParams(env: Env, urlStr: string, params: seq<Pair>)
    returns (r: Result<Response, RestError>, ghost trace: seq<Event>)
    ensures r == Reply(Execute(env, Call(GET, urlStr, Some(params), None, None)))
    ensures trace == Execute(env, Call(GET, urlStr, Some(params), None, None)).trace
  {
    r, trace := New(env, GET, urlStr, Some(params), None, None);
  }

  method PostWithParams(env: Env, urlStr: string, params: seq<Pair>)
    returns (r: Result<Response, RestError>, ghost trace: seq<Event>)
    requires MimeOk(env, Some(FormUrlEncoded))
    ensures r == Reply(Execute(env, Call(POST, urlStr, None, Some(env.urls.formSerialize(params)), Some(FormUrlEncoded))))
    ensures trace == Execute(env, Call(POST, urlStr, None, Some(env.urls.formSerialize(params)), Some(FormUrlEncoded))).trace
  {
    r, trace := PstarWithParams(env, POST, urlStr, params);
  }

  method Post(env: Env, urlStr: string, body: string, contentType: string)
    returns (r: Result<Response, RestError>, ghost trace: seq<Event>)
    requires MimeOk(env, Some(contentType))
    ensures r == Reply(Execute(env, Call(POST, urlStr, None, Some(body), Some(contentType))))
    ensures trace == Execute(env, Call(POST, urlStr, None, Some(body), Some(contentType))).trace
  {
    r, trace := Pstar(env, POST, urlStr, body, contentType);
  }

  method PatchWithParams(env: Env, urlStr: string, params: seq<Pair>)
    returns (r: Result<Response, RestError>, ghost trace: seq<Event>)
    requires MimeOk(env, Some(FormUrlEncoded))
    ensures r == Reply(Execute(env, Call(PATCH, urlStr, None, Some(env.urls.formSerialize(params)), Some(FormUrlEncoded))))
    ensures trace == Execute(env, Call(PATCH, urlStr, None, Some(env.urls.formSerialize(params)), Some(FormUrlEncoded))).trace
  {
    r, trace := PstarWithParams(env, PATCH, urlStr, params);
  }

  method Patch(env: Env, urlStr: string, body: string, contentType: string)
    returns (r: Result<Response, RestError>, ghost trace: seq<Event>)
    requires MimeOk(env, Some(contentType))
    ensures r == Reply(Execute(env, Call(PATCH, urlStr, None, Some(body), Some(contentType))))
    ensures trace == Execute(env, Call(PATCH, urlStr, None, Some(body), Some(contentType))).trace
  {
    r, trace := Pstar(env, PATCH, urlStr, body, contentType);
  }

  method PutWithParams(env: Env, urlStr: string, params: seq<Pair>)
    returns (r: Result<Response, RestError>, ghost trace: seq<Event>)
    requires MimeOk(env, Some(FormUrlEncoded))
    ensures r == Reply(Execute(env, Call(PUT, urlStr, None, Some(env.urls.formSerialize(params)), Some(FormUrlEncoded))))
    ensures trace == Execute(env, Call(PUT, urlStr, None, Some(env.urls.formSerialize(params)), Some(FormUrlEncoded))).trace
  {
    r, trace := PstarWithParams(env, PUT, urlStr, params);
  }

  method Put(env: Env, urlStr: string, body: string, contentType: string)
    returns (r: Result<Response, RestError>, ghost trace: seq<Event>)
    requires MimeOk(env, Some(contentType))
    ensures r == Reply(Execute(env, Call(PUT, urlStr, None, Some(body), Some(contentType))))
    ensures trace == Execute(env, Call(PUT, urlStr, None, Some(body), Some(contentType))).trace
  {
    r, trace := Pstar(env, PUT, urlStr, body, contentType);
  }

  method Delete(env: Env, urlStr: string) returns (r: Result<Response, RestError>, ghost trace: seq<Event>)
    ensures r == Reply(Execute(env, Call(DELETE, urlStr, None, None, None)))
    ensures trace == Execute(env, Call(DELETE, urlStr, None, None, None)).trace
  {
    r, trace := New(env, DELETE, urlStr, None, None, None);
  }

  method DeleteWithParams(env: Env, urlStr: string, params: seq<Pair>)
    returns (r: Result<Response, RestError>, ghost trace: seq<Event>)
    ensures r == Reply(Execute(env, Call(DELETE, urlStr, Some(params), None, None)))
    ensures trace == Execute(env, Call(DELETE, urlStr, Some(params), None, None)).trace
  {
    r, trace := New(env, DELETE, urlStr, Some(params), None, None);
  }

  // ---------------------------------------------------------------------
  // Dispatch
  // ---------------------------------------------------------------------

  /** The calls `get`, `get_with_params`, `delete` and `delete_with_params`
      make carry no body: nothing is written, nothing is on the stream when
      the request is sent, Content-Length is 0 and Content-Type is left as
      the transport's fresh request had it. */
  lemma BodylessCallsSendNoBody(env: Env, httpMethod: Method, urlStr: string, params: Option<seq<Pair>>)
    ensures var x := Execute(env, Call(httpMethod, urlStr, params, None, None));
      && (forall e | e in x.trace :: !e.Write?)
      && (forall e | e in x.trace && e.Send? :: e.written == [] && ContentLengthName in e.req.headers && e.req.headers[ContentLengthName] == Length(0))
      && (forall e | e in x.trace && e.Start? ::
            && env.transport.open(httpMethod, e.req.url).Ok?
            && (ContentTypeName in e.req.headers <==> ContentTypeName in env.transport.open(httpMethod, e.req.url).value))
  {
    var c := Call(httpMethod, urlStr, params, None, None);
    BodyWrittenOnlyWhenPresent(env, c);
    ContentLengthAlwaysSet(env, c);
    ContentTypeOnlyWhenGiven(env, c);
  }

  /** The calls `post_with_params`, `put_with_params` and `patch_with_params`
      make send the form serialisation of the pairs as the body, with
      Content-Type application/x-www-form-urlencoded and the matching
      Content-Length; the pairs go into the body and never into the URL's
      query. */
  lemma FormCallsAreUrlEncoded(env: Env, httpMethod: Method, urlStr: string, params: seq<Pair>)
    requires MimeOk(env, Some(FormUrlEncoded))
    ensures var form := env.urls.formSerialize(params);
      var x := Execute(env, Call(httpMethod, urlStr, None, Some(form), Some(FormUrlEncoded)));
      && (forall e | e in x.trace && e.Start? ::
            && ContentTypeName in e.req.headers && e.req.headers[ContentTypeName] == MediaType(env.parseMime(FormUrlEncoded).value)
            && ContentLengthName in e.req.headers && e.req.headers[ContentLengthName] == Length(|Encode(form)|))
      && (forall e | e in x.trace && e.Write? :: e.bytes == Encode(form))
      && (forall e | e in x.trace :: !e.SetQuery?)
      && (forall e | e in x.trace && e.NewRequest? :: e.url == env.urls.parse(urlStr).value)
  {
    var c := Call(httpMethod, urlStr, None, Some(env.urls.formSerialize(params)), Some(FormUrlEncoded));
    BodyWrittenOnlyWhenPresent(env, c);
    ContentLengthAlwaysSet(env, c);
    ContentTypeOnlyWhenGiven(env, c);
    QuerySetOnlyWithParams(env, c);
  }

  /** The calls `post`, `put` and `patch` make pass body and content type
      through unchanged, with no URL parameters. */
  lemma RawCallsPassThrough(env: Env, httpMethod: Method, urlStr: string, body: string, contentType: string)
    requires MimeOk(env, Some(contentType))
    ensures var x := Execute(env, Call(httpMethod, urlStr, None, Some(body), Some(contentType)));
      && (forall e | e in x.trace && e.Start? ::
            && ContentTypeName in e.req.headers && e.req.headers[ContentTypeName] == MediaType(env.parseMime(contentType).value)
            && ContentLengthName in e.req.headers && e.req.headers[ContentLengthName] == Length(|Encode(body)|))
      && (forall e | e in x.trace && e.Write? :: e.bytes == Encode(body))
      && (forall e | e in x.trace :: !e.SetQuery?)
  {
    var c := Call(httpMethod, urlStr, None, Some(body), Some(contentType));
    BodyWrittenOnlyWhenPresent(env, c);
    ContentLengthAlwaysSet(env, c);
    ContentTypeOnlyWhenGiven(env, c);
    QuerySetOnlyWithParams(env, c);
  }

  /** Posting the JSON text {"x":1} as application/json: the request carries
      Content-Length 7, the body's byte count, and that content type, and
      the 7 bytes written are the text's characters. */
  lemma PostJsonExample(env: Env)
    requires MimeOk(env, Some("application/json"))
    ensures var x := Execute(env, Call(POST, "http://example.test/items", None, Some("{\"x\":1}"), Some("application/json")));
      && (forall e | e in x.trace && e.Start? ::
            && ContentLengthName in e.req.headers && e.req.headers[ContentLengthName] == Length(7)
            && ContentTypeName in e.req.headers && e.req.headers[ContentTypeName] == MediaType(env.parseMime("application/json").value))
      && (forall e | e in x.trace && e.Write? :: e.bytes == [0x7B, 0x22, 0x78, 0x22, 0x3A, 0x31, 0x7D])
  {
    var json := "{\"x\":1}";
    AsciiEncoding(json);
    assert Encode(json) == [0x7B, 0x22, 0x78, 0x22, 0x3A, 0x31, 0x7D];
    RawCallsPassThrough(env, POST, "http://example.test/items", json, "application/json");
  }
}
