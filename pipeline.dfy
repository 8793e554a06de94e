/**
 * The per-call pipeline of `RestClient::new` as a state machine: one stage
 * per point the call can reach, one step per phase, each step making at most
 * one call into a collaborator and recording it. `Run` drives a call from
 * `Built` to `Finished` or `Failed`; the lemmas state what every run does.
 */
module Pipeline {
  import opened Utf8
  import opened Collaborators
  import opened RestTypes

  /** The arguments of `RestClient::new`. */
  datatype Call = Call(
    httpMethod: Method,
    url: string,
    params: Option<seq<Pair>>,
    body: Option<string>,
    contentType: Option<string>)

  /** A call into a collaborator, with its arguments. */
  datatype Event =
    | ParseUrl(input: string)
    | SetQuery(base: Url, pairs: seq<Pair>)
    | NewRequest(httpMethod: Method, url: Url)
    | Start(req: Request)
    | Write(req: Request, bytes: seq<byte>)
    | Send(req: Request, written: seq<byte>)
    | ReadBody(incoming: Incoming)

  datatype Phase = ParsePhase | QueryPhase | NewRequestPhase | StartPhase | WritePhase | SendPhase | ReadPhase

  function PhaseOf(e: Event): Phase {
    match e
    case ParseUrl(_) => ParsePhase
    case SetQuery(_, _) => QueryPhase
    case NewRequest(_, _) => NewRequestPhase
    case Start(_) => StartPhase
    case Write(_, _) => WritePhase
    case Send(_, _) => SendPhase
    case ReadBody(_) => ReadPhase
  }

  function Phases(trace: seq<Event>): seq<Phase> {
    seq(|trace|, i requires 0 <= i < |trace| => PhaseOf(trace[i]))
  }

  predicate IsPrefix<T(==)>(p: seq<T>, q: seq<T>) {
    |p| <= |q| && q[..|p|] == p
  }

  function Last<T>(s: seq<T>): T
    requires |s| > 0
  {
    s[|s| - 1]
  }

  /** The phases of a call in the order the source runs them: the query is set
      only with parameters and the body written only when there is one. */
  function Plan(c: Call): seq<Phase> {
    [ParsePhase] + QueryStep(c) + [NewRequestPhase] + AfterComposed(c)
  }

  function QueryStep(c: Call): seq<Phase> {
    if c.params.Some? then [QueryPhase] else []
  }

  function WriteStep(c: Call): seq<Phase> {
    if c.body.Some? then [WritePhase] else []
  }

  function AfterComposed(c: Call): seq<Phase> {
    [StartPhase] + WriteStep(c) + [SendPhase, ReadPhase]
  }

  /** The points a call passes through. */
  datatype Stage =
    | Built
    | UrlParsed(url: Url)
    | UrlAssembled(url: Url)
    | Opened(req: Request)
    | Composed(req: Request)
    | Started(req: Request)
    | BodyWritten(req: Request, written: seq<byte>)
    | ResponseReceived(incoming: Incoming)
    | Finished(response: Response)
    | Failed(error: RestError)

  predicate Terminal(s: Stage) {
    s.Finished? || s.Failed?
  }

  /** How many steps a stage is from the end at most. */
  function Rank(s: Stage): nat {
    match s
    case Built => 8
    case UrlParsed(_) => 7
    case UrlAssembled(_) => 6
    case Opened(_) => 5
    case Composed(_) => 4
    case Started(_) => 3
    case BodyWritten(_, _) => 2
    case ResponseReceived(_) => 1
    case Finished(_) => 0
    case Failed(_) => 0
  }

  /** The phases still to run from a stage. */
  function Remaining(c: Call, s: Stage): seq<Phase> {
    match s
    case Built => Plan(c)
    case UrlParsed(_) => QueryStep(c) + [NewRequestPhase] + AfterComposed(c)
    case UrlAssembled(_) => [NewRequestPhase] + AfterComposed(c)
    case Opened(_) => AfterComposed(c)
    case Composed(_) => AfterComposed(c)
    case Started(_) => WriteStep(c) + [SendPhase, ReadPhase]
    case BodyWritten(_, _) => [SendPhase, ReadPhase]
    case ResponseReceived(_) => [ReadPhase]
    case Finished(_) => []
    case Failed(_) => []
  }

  /** The bytes of the body, none when there is no body. */
  function BodyBytes(body: Option<string>): seq<byte> {
    if body.Some? then Encode(body.value) else []
  }

  /** The URL the request is made to: the parsed URL, with its query replaced
      by the parameters when there are any. */
  function AssembleUrl(urls: UrlLib, parsed: Url, params: Option<seq<Pair>>): Url {
    if params.Some? then urls.setQueryFromPairs(parsed, params.value) else parsed
  }

  /** The header policy applied to the initial request. Content-Length is always
      set, to the body's byte length or to 0 without a body; Content-Type is
      set exactly when the caller gives one; every other header is left as
      the transport made it. */
  function ComposeHeaders(env: Env, initial: Headers, body: Option<string>, contentType: Option<string>): (h: Headers)
    requires MimeOk(env, contentType)
    ensures ContentLengthName in h && h[ContentLengthName] == Length(|BodyBytes(body)|)
    ensures ContentTypeName in h <==> contentType.Some? || ContentTypeName in initial
    ensures contentType.Some? ==> h[ContentTypeName] == MediaType(env.parseMime(contentType.value).value)
    ensures contentType.None? && ContentTypeName in initial ==> h[ContentTypeName] == initial[ContentTypeName]
    ensures forall n :: n in initial && n != ContentLengthName && n != ContentTypeName ==> n in h && h[n] == initial[n]
    ensures forall n :: n in h ==> n in initial || n == ContentLengthName || n == ContentTypeName
  {
    var withLength :=
      if body.Some? then initial[ContentLengthName := Length(|Encode(body.value)|)]
      else initial[ContentLengthName := Length(0)];
    if contentType.Some? then
      withLength[ContentTypeName := MediaType(env.parseMime(contentType.value).value)]
    else
      withLength
  }

  datatype Transition = Transition(next: Stage, events: seq<Event>)

  /** One phase. Every step moves strictly closer to the end, so no stage is
      visited twice. */
  function Step(env: Env, c: Call, s: Stage): (t: Transition)
    requires MimeOk(env, c.contentType)
    requires !Terminal(s)
    ensures Rank(t.next) < Rank(s)
  {
    match s
    case Built =>
      var events := [ParseUrl(c.url)];
      (match env.urls.parse(c.url)
       case Err(e) => Transition(Failed(UrlParseError(e)), events)
       case Ok(url) => Transition(UrlParsed(url), events))
    case UrlParsed(url) =>
      if c.params.Some? then
        Transition(UrlAssembled(env.urls.setQueryFromPairs(url, c.params.value)), [SetQuery(url, c.params.value)])
      else
        Transition(UrlAssembled(url), [])
    case UrlAssembled(url) =>
      var events := [NewRequest(c.httpMethod, url)];
      (match env.transport.open(c.httpMethod, url)
       case Err(e) => Transition(Failed(HttpRequestError(e)), events)
       case Ok(headers) => Transition(Opened(Request(c.httpMethod, url, headers)), events))
    case Opened(req) =>
      Transition(Composed(req.(headers := ComposeHeaders(env, req.headers, c.body, c.contentType))), [])
    case Composed(req) =>
      var events := [Start(req)];
      (match env.transport.start(req)
       case Fail(e) => Transition(Failed(HttpRequestError(e)), events)
       case Pass => Transition(Started(req), events))
    case Started(req) =>
      if c.body.Some? then
        var bytes := Encode(c.body.value);
        var events := [Write(req, bytes)];
        (match env.transport.write(req, bytes)
         case Fail(e) => Transition(Failed(HttpIoError(e)), events)
         case Pass => Transition(BodyWritten(req, bytes), events))
      else
        Transition(BodyWritten(req, []), [])
    case BodyWritten(req, written) =>
      var events := [Send(req, written)];
      (match env.transport.send(req, written)
       case Err(e) => Transition(Failed(HttpRequestError(e)), events)
       case Ok(incoming) => Transition(ResponseReceived(incoming), events))
    case ResponseReceived(incoming) =>
      var events := [ReadBody(incoming)];
      (match env.transport.readToString(incoming)
       case Err(e) => Transition(Failed(HttpIoError(e)), events)
       case Ok(text) =>
         Transition(Finished(Response(incoming.status as int, incoming.status, incoming.headers, text)), events))
  }

  /** Where a run ends and the collaborator calls it made, in order. */
  datatype Execution = Execution(final: Stage, trace: seq<Event>)

  /** Runs a call from a stage to the end. Every run ends in exactly one of a
      response or an error. */
  function Run(env: Env, c: Call, s: Stage): (x: Execution)
    requires MimeOk(env, c.contentType)
    ensures Terminal(x.final)
    decreases Rank(s)
  {
    if Terminal(s) then
      Execution(s, [])
    else
      var t := Step(env, c, s);
      var rest := Run(env, c, t.next);
      Execution(rest.final, t.events + rest.trace)
  }

  /** A whole call of `RestClient::new`. */
  function Execute(env: Env, c: Call): Execution
    requires MimeOk(env, c.contentType)
  {
    Run(env, c, Built)
  }

  /** What the caller gets back. */
  function Reply(x: Execution): Result<Response, RestError>
    requires Terminal(x.final)
  {
    if x.final.Finished? then Ok(x.final.response) else Err(x.final.error)
  }

  // ---------------------------------------------------------------------
  // Invariants of a run
  // ---------------------------------------------------------------------

  /** `req` is the request the call composes: the method given, the assembled
      URL, and the initial request's headers under the header policy. */
  ghost predicate IsComposed(env: Env, c: Call, req: Request)
    requires MimeOk(env, c.contentType)
  {
    && env.urls.parse(c.url).Ok?
    && req.httpMethod == c.httpMethod
    && req.url == AssembleUrl(env.urls, env.urls.parse(c.url).value, c.params)
    && env.transport.open(c.httpMethod, req.url).Ok?
    && req.headers == ComposeHeaders(env, env.transport.open(c.httpMethod, req.url).value, c.body, c.contentType)
  }

  /** `incoming` is what `send` returned for the composed request and the
      body's bytes. */
  ghost predicate SentFor(env: Env, c: Call, incoming: Incoming)
    requires MimeOk(env, c.contentType)
  {
    exists req :: IsComposed(env, c, req) && env.transport.send(req, BodyBytes(c.body)) == Ok(incoming)
  }

  /** A composed request is determined by the call. */
  lemma ComposedIsUnique(env: Env, c: Call, r1: Request, r2: Request)
    requires MimeOk(env, c.contentType)
    requires IsComposed(env, c, r1) && IsComposed(env, c, r2)
    ensures r1 == r2
  {
  }

  /** What holds of each stage a call reaches. */
  ghost predicate Consistent(env: Env, c: Call, s: Stage)
    requires MimeOk(env, c.contentType)
  {
    match s
    case Built => true
    case UrlParsed(url) => env.urls.parse(c.url) == Ok(url)
    case UrlAssembled(url) =>
      env.urls.parse(c.url).Ok? && url == AssembleUrl(env.urls, env.urls.parse(c.url).value, c.params)
    case Opened(req) =>
      && env.urls.parse(c.url).Ok?
      && req.httpMethod == c.httpMethod
      && req.url == AssembleUrl(env.urls, env.urls.parse(c.url).value, c.params)
      && env.transport.open(c.httpMethod, req.url) == Ok(req.headers)
    case Composed(req) => IsComposed(env, c, req)
    case Started(req) => IsComposed(env, c, req)
    case BodyWritten(req, written) => IsComposed(env, c, req) && written == BodyBytes(c.body)
    case ResponseReceived(incoming) => SentFor(env, c, incoming)
    case Finished(response) => response.Valid()
    case Failed(_) => true
  }

  /** What the call asks of each collaborator: the URL string given, the
      parameters given, the composed request, the body's bytes, and the
      response handle `send` returned. */
  ghost predicate Conforms(env: Env, c: Call, e: Event)
    requires MimeOk(env, c.contentType)
  {
    match e
    case ParseUrl(input) => input == c.url
    case SetQuery(base, pairs) => env.urls.parse(c.url) == Ok(base) && c.params == Some(pairs)
    case NewRequest(m, url) =>
      && m == c.httpMethod
      && env.urls.parse(c.url).Ok?
      && url == AssembleUrl(env.urls, env.urls.parse(c.url).value, c.params)
    case Start(req) => IsComposed(env, c, req)
    case Write(req, bytes) => IsComposed(env, c, req) && c.body.Some? && bytes == Encode(c.body.value)
    case Send(req, written) => IsComposed(env, c, req) && written == BodyBytes(c.body)
    case ReadBody(incoming) => SentFor(env, c, incoming)
  }

  /** The error a collaborator call failed with, as the client reports it:
      a parse failure as `UrlParseError`, a failure of `Request::new`,
      `start` or `send` as `HttpRequestError`, a failure of `write` or
      `read_to_string` as `HttpIoError`. Setting the query cannot fail. */
  function Failure(env: Env, e: Event): Option<RestError> {
    match e
    case ParseUrl(input) =>
      (match env.urls.parse(input) case Err(err) => Some(UrlParseError(err)) case Ok(_) => None)
    case SetQuery(_, _) => None
    case NewRequest(m, url) =>
      (match env.transport.open(m, url) case Err(err) => Some(HttpRequestError(err)) case Ok(_) => None)
    case Start(req) =>
      (match env.transport.start(req) case Fail(err) => Some(HttpRequestError(err)) case Pass => None)
    case Write(req, bytes) =>
      (match env.transport.write(req, bytes) case Fail(err) => Some(HttpIoError(err)) case Pass => None)
    case Send(req, written) =>
      (match env.transport.send(req, written) case Err(err) => Some(HttpRequestError(err)) case Ok(_) => None)
    case ReadBody(incoming) =>
      (match env.transport.readToString(incoming) case Err(err) => Some(HttpIoError(err)) case Ok(_) => None)
  }

  /** How a run ends, given the last collaborator call it made: a response
      comes from a successful read, and each error from the failure of the
      call of its own phase, carrying that call's error. */
  ghost predicate Concludes(env: Env, final: Stage, last: Event) {
    match final
    case Finished(resp) =>
      && last.ReadBody?
      && env.transport.readToString(last.incoming) == Ok(resp.body)
      && resp.status == last.incoming.status
      && resp.headers == last.incoming.headers
      && resp.code == resp.status as int
    case Failed(err) => Failure(env, last) == Some(err)
    case _ => false
  }

  // ---------------------------------------------------------------------
  // One step
  // ---------------------------------------------------------------------

  /** A step runs the next phases of the plan: all of the ones it is
      responsible for, unless its collaborator failed. */
  lemma StepFollowsPlan(env: Env, c: Call, s: Stage)
    requires MimeOk(env, c.contentType)
    requires !Terminal(s)
    ensures var t := Step(env, c, s);
      && IsPrefix(Phases(t.events) + Remaining(c, t.next), Remaining(c, s))
      && (!t.next.Failed? ==> Phases(t.events) + Remaining(c, t.next) == Remaining(c, s))
  {
  }

  /** A step makes at most one call. It fails exactly when that call failed,
      and with the error the call failed with. */
  lemma StepFails(env: Env, c: Call, s: Stage)
    requires MimeOk(env, c.contentType)
    requires !Terminal(s)
    ensures var t := Step(env, c, s);
      && |t.events| <= 1
      && (!t.next.Failed? ==> forall e | e in t.events :: Failure(env, e).None?)
      && (t.next.Failed? ==> |t.events| == 1 && Failure(env, t.events[0]) == Some(t.next.error))
  {
  }

  /** A step keeps the stage invariant and makes only conforming calls. */
  lemma StepConforms(env: Env, c: Call, s: Stage)
    requires MimeOk(env, c.contentType)
    requires !Terminal(s)
    requires Consistent(env, c, s)
    ensures var t := Step(env, c, s);
      && Consistent(env, c, t.next)
      && forall e | e in t.events :: Conforms(env, c, e)
  {
  }

  /** A step that ends the run made a call, and the last call it made
      explains the end. */
  lemma StepConcludes(env: Env, c: Call, s: Stage)
    requires MimeOk(env, c.contentType)
    requires !Terminal(s)
    ensures var t := Step(env, c, s);
      Terminal(t.next) ==> |t.events| > 0 && Concludes(env, t.next, Last(t.events))
  {
  }

  // ---------------------------------------------------------------------
  // Whole runs
  // ---------------------------------------------------------------------

  lemma PhasesAppend(a: seq<Event>, b: seq<Event>)
    ensures Phases(a + b) == Phases(a) + Phases(b)
  {
  }

  /** A run makes its calls in the order of the plan, and every call but the
      last succeeded, so nothing runs after a failure; a run that finishes
      has made every call of the plan. */
  lemma {:induction false} RunFollowsPlan(env: Env, c: Call, s: Stage)
    requires MimeOk(env, c.contentType)
    ensures var x := Run(env, c, s);
      && IsPrefix(Phases(x.trace), Remaining(c, s))
      && (x.final.Finished? ==> Phases(x.trace) == Remaining(c, s))
      && forall i | 0 <= i < |x.trace| - 1 :: Failure(env, x.trace[i]).None?
    decreases Rank(s)
  {
    if !Terminal(s) {
      var t := Step(env, c, s);
      var rest := Run(env, c, t.next);
      RunFollowsPlan(env, c, t.next);
      StepFollowsPlan(env, c, s);
      PhasesAppend(t.events, rest.trace);
      var p, q := Phases(t.events), Phases(rest.trace);
      assert IsPrefix(p + q, p + Remaining(c, t.next)) by {
        assert (p + Remaining(c, t.next))[..|p + q|] == p + Remaining(c, t.next)[..|q|];
      }
      StepFails(env, c, s);
      var trace := t.events + rest.trace;
      forall i | 0 <= i < |trace| - 1 ensures Failure(env, trace[i]).None? {
        if i < |t.events| {
          assert trace[i] == t.events[i] && t.events[i] in t.events;
        } else {
          assert trace[i] == rest.trace[i - |t.events|];
        }
      }
    }
  }

  /** Every call a run makes conforms, and the stage it ends in is
      consistent. */
  lemma {:induction false} RunConforms(env: Env, c: Call, s: Stage)
    requires MimeOk(env, c.contentType)
    requires Consistent(env, c, s)
    ensures var x := Run(env, c, s);
      && Consistent(env, c, x.final)
      && forall e | e in x.trace :: Conforms(env, c, e)
    decreases Rank(s)
  {
    if !Terminal(s) {
      StepConforms(env, c, s);
      RunConforms(env, c, Step(env, c, s).next);
    }
  }

  /** A run from a stage that is not yet final makes at least one call, and
      its last call explains how it ended: the run failed exactly when that
      call failed, and with that call's error. */
  lemma {:induction false} RunConcludes(env: Env, c: Call, s: Stage)
    requires MimeOk(env, c.contentType)
    requires !Terminal(s)
    ensures var x := Run(env, c, s);
      && |x.trace| > 0
      && Concludes(env, x.final, Last(x.trace))
      && (x.final.Failed? <==> Failure(env, Last(x.trace)).Some?)
    decreases Rank(s)
  {
    var t := Step(env, c, s);
    StepConcludes(env, c, s);
    if !Terminal(t.next) {
      RunConcludes(env, c, t.next);
      var rest := Run(env, c, t.next);
      assert Last(t.events + rest.trace) == Last(rest.trace);
    }
  }

  // ---------------------------------------------------------------------
  // Stepping a call by hand
  // ---------------------------------------------------------------------

  /** The calls in `done` followed by a run from `s` make up the run from
      `origin`. */
  ghost predicate Reaches(env: Env, c: Call, origin: Stage, s: Stage, done: seq<Event>)
    requires MimeOk(env, c.contentType)
  {
    Run(env, c, origin) == Execution(Run(env, c, s).final, done + Run(env, c, s).trace)
  }

  lemma Advance(env: Env, c: Call, origin: Stage, s: Stage, done: seq<Event>, next: Stage, events: seq<Event>)
    requires MimeOk(env, c.contentType)
    requires !Terminal(s)
    requires Reaches(env, c, origin, s, done)
    requires Step(env, c, s) == Transition(next, events)
    ensures Reaches(env, c, origin, next, done + events)
  {
    var rest := Run(env, c, next);
    assert done + (events + rest.trace) == (done + events) + rest.trace;
  }

  lemma Finish(env: Env, c: Call, origin: Stage, s: Stage, done: seq<Event>)
    requires MimeOk(env, c.contentType)
    requires Terminal(s)
    requires Reaches(env, c, origin, s, done)
    ensures Run(env, c, origin) == Execution(s, done)
  {
    assert done + [] == done;
  }
}
