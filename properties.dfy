/**
 * What every call of `RestClient::new` does, whatever its collaborators do:
 * the order of its phases, the mapping of failures to errors, the URL it
 * requests, the headers it sets, the bytes it writes and the response it
 * builds.
 */
module Properties {
  import opened Utf8
  import opened Collaborators
  import opened RestTypes
  import opened Pipeline

  /** No phase appears twice in a plan. */
  lemma PlanHasNoRepeats(c: Call)
    ensures forall i, j :: 0 <= i < j < |Plan(c)| ==> Plan(c)[i] != Plan(c)[j]
  {
    var p := Plan(c);
    if c.params.Some? && c.body.Some? {
      assert p == [ParsePhase, QueryPhase, NewRequestPhase, StartPhase, WritePhase, SendPhase, ReadPhase];
    } else if c.params.Some? {
      assert p == [ParsePhase, QueryPhase, NewRequestPhase, StartPhase, SendPhase, ReadPhase];
    } else if c.body.Some? {
      assert p == [ParsePhase, NewRequestPhase, StartPhase, WritePhase, SendPhase, ReadPhase];
    } else {
      assert p == [ParsePhase, NewRequestPhase, StartPhase, SendPhase, ReadPhase];
    }
  }

  /** A call runs its phases in the fixed order parse, set query (with
      parameters only), build request, start, write body (with a body only),
      send, read. It attempts at least one phase and never attempts a phase
      twice. It stops at the first failure: every call but the last
      succeeded, and the call returns an error exactly when the last one
      failed. A call that returns a response has run every phase of its
      plan. */
  lemma TraceFollowsPlan(env: Env, c: Call)
    requires MimeOk(env, c.contentType)
    ensures var x := Execute(env, c);
      && |x.trace| > 0
      && IsPrefix(Phases(x.trace), Plan(c))
      && (Reply(x).Ok? ==> Phases(x.trace) == Plan(c))
      && (forall i, j :: 0 <= i < j < |x.trace| ==> PhaseOf(x.trace[i]) != PhaseOf(x.trace[j]))
      && (forall i | 0 <= i < |x.trace| - 1 :: Failure(env, x.trace[i]).None?)
      && (Reply(x).Err? <==> Failure(env, Last(x.trace)).Some?)
  {
    var x := Execute(env, c);
    RunFollowsPlan(env, c, Built);
    RunConcludes(env, c, Built);
    PlanHasNoRepeats(c);
    forall i, j | 0 <= i < j < |x.trace| ensures PhaseOf(x.trace[i]) != PhaseOf(x.trace[j]) {
      assert Phases(x.trace)[i] == Plan(c)[i] && Phases(x.trace)[j] == Plan(c)[j];
    }
  }

  /** A URL that does not parse ends the call with `UrlParseError` carrying
      the parser's error, before any request is built, started, written, sent
      or read; and `UrlParseError` arises in no other way. */
  lemma UrlParseFailureStopsTheCall(env: Env, c: Call)
    requires MimeOk(env, c.contentType)
    ensures var x := Execute(env, c);
      && ((Reply(x).Err? && Reply(x).error.UrlParseError?) <==> env.urls.parse(c.url).Err?)
      && (env.urls.parse(c.url).Err? ==>
            && Reply(x) == Err(UrlParseError(env.urls.parse(c.url).error))
            && x.trace == [ParseUrl(c.url)])
  {
    var x := Execute(env, c);
    RunConcludes(env, c, Built);
    RunConforms(env, c, Built);
    assert Last(x.trace) in x.trace;
  }

  /** An error names the phase that failed: `UrlParseError` only for parsing,
      `HttpRequestError` only for building, starting or sending the request,
      `HttpIoError` only for writing the body or reading the response; setting
      the query never fails. Conversely, a failing call is the last one made
      and the call returns its error as `Failure` maps it: a failing parse as
      `UrlParseError`, a failing `Request::new`, `start` or `send` as
      `HttpRequestError`, a failing `write` or `read_to_string` as
      `HttpIoError`. A response comes from a successful read of the body. */
  lemma ErrorNamesFailingPhase(env: Env, c: Call)
    requires MimeOk(env, c.contentType)
    ensures var x := Execute(env, c);
      && |x.trace| > 0
      && Concludes(env, x.final, Last(x.trace))
      && (forall i | 0 <= i < |x.trace| && Failure(env, x.trace[i]).Some? ::
            i == |x.trace| - 1 && Reply(x) == Err(Failure(env, x.trace[i]).value))
      && var p := PhaseOf(Last(x.trace));
      && (Reply(x).Ok? ==> p == ReadPhase)
      && (Reply(x).Err? ==>
            && (Reply(x).error.UrlParseError? <==> p == ParsePhase)
            && (Reply(x).error.HttpRequestError? <==> p == NewRequestPhase || p == StartPhase || p == SendPhase)
            && (Reply(x).error.HttpIoError? <==> p == WritePhase || p == ReadPhase))
  {
    RunConcludes(env, c, Built);
    RunFollowsPlan(env, c, Built);
  }

  /** The parsed URL's query is replaced only when there are parameters, once,
      by the query setter, with the parameters exactly as given (so in their
      order); without parameters the request goes to the parsed URL
      unmodified. */
  lemma QuerySetOnlyWithParams(env: Env, c: Call)
    requires MimeOk(env, c.contentType)
    ensures var x := Execute(env, c);
      && (forall e | e in x.trace && e.SetQuery? ::
            c.params == Some(e.pairs) && env.urls.parse(c.url) == Ok(e.base))
      && (c.params.None? ==> forall e | e in x.trace :: !e.SetQuery?)
      && (c.params.Some? && env.urls.parse(c.url).Ok? ==>
            |x.trace| > 1 && x.trace[1] == SetQuery(env.urls.parse(c.url).value, c.params.value))
      && (forall e | e in x.trace && e.NewRequest? ::
            && env.urls.parse(c.url).Ok?
            && e.url == (if c.params.Some? then env.urls.setQueryFromPairs(env.urls.parse(c.url).value, c.params.value)
                         else env.urls.parse(c.url).value))
  {
    var x := Execute(env, c);
    RunConforms(env, c, Built);
    RunConcludes(env, c, Built);
    TraceFollowsPlan(env, c);
    if c.params.None? {
      forall e | e in x.trace ensures !e.SetQuery? {
        var i :| 0 <= i < |x.trace| && x.trace[i] == e;
        assert Phases(x.trace)[i] == Plan(c)[i];
      }
    }
    if c.params.Some? && env.urls.parse(c.url).Ok? {
      assert Phases(x.trace)[0] == ParsePhase;
      assert Phases(x.trace)[1] == Plan(c)[1] == QueryPhase;
      assert x.trace[1] in x.trace;
    }
  }

  /** Content-Length is set on every request the transport sees: to the body's
      byte length, to exactly 0 without a body; and it equals the number of
      bytes written to the request stream before it is sent (section 3.3.2 of
      RFC 7230). */
  lemma ContentLengthAlwaysSet(env: Env, c: Call)
    requires MimeOk(env, c.contentType)
    ensures var x := Execute(env, c);
      && (forall e | e in x.trace && (e.Start? || e.Write? || e.Send?) ::
            ContentLengthName in e.req.headers && e.req.headers[ContentLengthName] == Length(|BodyBytes(c.body)|))
      && (forall e | e in x.trace && e.Send? :: e.req.headers[ContentLengthName] == Length(|e.written|))
  {
    RunConforms(env, c, Built);
  }

  /** A Content-Type header is set exactly when the caller gives a content
      type, to that type as parsed; without one, the header is whatever the
      transport's fresh request had (none for hyper's), and no default is
      invented. Headers other than these two are left as they were. */
  lemma ContentTypeOnlyWhenGiven(env: Env, c: Call)
    requires MimeOk(env, c.contentType)
    ensures var x := Execute(env, c);
      forall e | e in x.trace && e.Start? ::
        && env.transport.open(c.httpMethod, e.req.url).Ok?
        && var initial := env.transport.open(c.httpMethod, e.req.url).value;
        && (ContentTypeName in e.req.headers <==> c.contentType.Some? || ContentTypeName in initial)
        && (c.contentType.Some? ==> e.req.headers[ContentTypeName] == MediaType(env.parseMime(c.contentType.value).value))
        && (c.contentType.None? && ContentTypeName in initial ==> e.req.headers[ContentTypeName] == initial[ContentTypeName])
        && (forall n :: n != ContentLengthName && n != ContentTypeName ==>
              (n in e.req.headers <==> n in initial) && (n in initial ==> e.req.headers[n] == initial[n]))
  {
    RunConforms(env, c, Built);
  }

  /** The body is written only when there is one, and then its bytes exactly;
      without a body nothing is written. The bytes on the stream when the
      request is sent are the body's bytes. */
  lemma BodyWrittenOnlyWhenPresent(env: Env, c: Call)
    requires MimeOk(env, c.contentType)
    ensures var x := Execute(env, c);
      && (forall e | e in x.trace && e.Write? :: c.body.Some? && e.bytes == Encode(c.body.value))
      && (c.body.None? ==> forall e | e in x.trace :: !e.Write?)
      && (forall e | e in x.trace && e.Send? :: e.written == BodyBytes(c.body))
  {
    RunConforms(env, c, Built);
  }

  /** With a body, the write comes right before the send, on the same
      request. */
  lemma WriteComesRightBeforeSend(env: Env, c: Call, i: nat)
    requires MimeOk(env, c.contentType)
    requires c.body.Some?
    requires i < |Execute(env, c).trace| && Execute(env, c).trace[i].Send?
    ensures var x := Execute(env, c);
      i > 0 && x.trace[i - 1] == Write(x.trace[i].req, Encode(c.body.value))
  {
    var x := Execute(env, c);
    var p := Plan(c);
    TraceFollowsPlan(env, c);
    PlanHasNoRepeats(c);
    assert Phases(x.trace)[i] == p[i] == SendPhase;
    assert p[|p| - 2] == SendPhase && p[|p| - 3] == WritePhase;
    assert i == |p| - 2;
    assert Phases(x.trace)[i - 1] == p[i - 1] == WritePhase;
    RunConforms(env, c, Built);
    assert x.trace[i - 1] in x.trace && x.trace[i] in x.trace;
  }

  /** A response is built from the handle `send` returned: it carries the code
      of that handle's status, the status, its headers unchanged and the body
      text exactly as read from it; it displays as that body. */
  lemma ResponseIsFaithful(env: Env, c: Call)
    requires MimeOk(env, c.contentType)
    ensures var x := Execute(env, c);
      Reply(x).Ok? ==>
        var resp := Reply(x).value;
        && |x.trace| > 1
        && Last(x.trace).ReadBody?
        && var incoming := Last(x.trace).incoming;
        && var sent := x.trace[|x.trace| - 2];
        && sent.Send?
        && env.transport.send(sent.req, sent.written) == Ok(incoming)
        && env.transport.readToString(incoming) == Ok(resp.body)
        && resp.status == incoming.status
        && resp.code == incoming.status as int
        && resp.headers == incoming.headers
        && resp.Show() == resp.body
  {
    var x := Execute(env, c);
    RunConcludes(env, c, Built);
    if Reply(x).Ok? {
      TraceFollowsPlan(env, c);
      RunConforms(env, c, Built);
      var n := |x.trace|;
      var p := Plan(c);
      assert p[|p| - 2] == SendPhase;
      assert Phases(x.trace)[n - 2] == SendPhase;
      var sent, read := x.trace[n - 2], x.trace[n - 1];
      assert sent in x.trace && read in x.trace;
      var req :| IsComposed(env, c, req) && env.transport.send(req, BodyBytes(c.body)) == Ok(read.incoming);
      ComposedIsUnique(env, c, req, sent.req);
    }
  }
}
