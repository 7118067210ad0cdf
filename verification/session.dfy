/** The transport layer of client.go as functions on the session state:
    option handling, request construction, get and post, and the
    Referer chaining they keep. */
module Session {
  import opened Basics
  import opened Http

  /** The functional options NewClient accepts; WithDebug is the only one. */
  datatype Opt = WithDebug

  datatype Options = Options(debug: bool)

  /** An option switches its setting on, whatever it was. */
  function Apply(o: Opt, ops: Options): (r: Options)
    ensures o.WithDebug? ==> r.debug
  {
    match o
    case WithDebug => ops.(debug := true)
  }

  /** NewClient's loop over its options, applied in order. */
  method ApplyOptions(opts: seq<Opt>) returns (ops: Options)
    ensures ops.debug <==> WithDebug in opts
  {
    ops := Options(false);
    for i := 0 to |opts|
      invariant ops.debug <==> WithDebug in opts[..i]
    {
      assert opts[..i + 1] == opts[..i] + [opts[i]];
      assert opts[i] in opts[..i + 1] && opts[i].WithDebug?;
      ops := Apply(opts[i], ops);
    }
    assert opts[..|opts|] == opts;
  }

  /** The mutable part of a client (token, userCode, lastReq) together with
      the portal side of its connection. */
  datatype State = State(token: string, userCode: string, lastReq: Option<string>, link: Link)

  /** A state after an operation, with the operation's result. */
  datatype Step<T> = Step(st: State, res: Result<T>)

  /** A failed step, with its result type changed to a step that yields no value. */
  function Failed<T>(s: Step<T>): Step<()>
    requires s.res.Err?
  {
    Step(s.st, Err(s.res.error))
  }

  /** refererForURL: the previous URL as text, "" before the first request. */
  function RefererFor(lastReq: Option<string>): (ref: string)
    ensures lastReq.None? ==> ref == ""
    ensures lastReq.Some? ==> ref == lastReq.value
  {
    match lastReq
    case None => ""
    case Some(u) => u
  }

  /** The Referer a request carries, "" when it has none. */
  function RefererOf(req: Request): string
  {
    if "Referer" in req.headers then req.headers["Referer"] else ""
  }

  function WithReferer(headers: map<string, string>, lastReq: Option<string>): map<string, string>
  {
    var ref := RefererFor(lastReq);
    if ref != "" then headers["Referer" := ref] else headers
  }

  /** The request get builds. */
  function GetRequest(uri: string, lastReq: Option<string>): (req: Request)
    ensures req.verb == GET && req.url == uri && req.form == map[]
    ensures RefererOf(req) == RefererFor(lastReq)
    ensures "Referer" in req.headers <==> RefererFor(lastReq) != ""
    ensures "User-Agent" in req.headers && req.headers["User-Agent"] == UserAgent
    ensures req.headers.Keys == {"User-Agent"} + (if RefererFor(lastReq) != "" then {"Referer"} else {})
  {
    Request(GET, uri, WithReferer(map["User-Agent" := UserAgent], lastReq), map[])
  }

  /** The request post builds: the current token travels in a header. */
  function PostRequest(uri: string, token: string, lastReq: Option<string>, form: map<string, string>): (req: Request)
    ensures req.verb == POST && req.url == uri && req.form == form
    ensures RefererOf(req) == RefererFor(lastReq)
    ensures "Referer" in req.headers <==> RefererFor(lastReq) != ""
    ensures "__RequestVerificationToken" in req.headers && req.headers["__RequestVerificationToken"] == token
    ensures "X-Requested-With" in req.headers && req.headers["X-Requested-With"] == "XMLHttpRequest"
    ensures "Content-Type" in req.headers && req.headers["Content-Type"] == "application/x-www-form-urlencoded"
    ensures "User-Agent" in req.headers && req.headers["User-Agent"] == UserAgent
    ensures req.headers.Keys == {"User-Agent", "Content-Type", "__RequestVerificationToken", "X-Requested-With"}
                                + (if RefererFor(lastReq) != "" then {"Referer"} else {})
  {
    var headers := map[
      "User-Agent" := UserAgent,
      "Content-Type" := "application/x-www-form-urlencoded",
      "__RequestVerificationToken" := token,
      "X-Requested-With" := "XMLHttpRequest"];
    Request(POST, uri, WithReferer(headers, lastReq), form)
  }

  /** Referer chaining over a whole session: lastReq is the URL of the last
      request sent (None before the first), the first request carries no
      Referer and every later one carries the URL of the one before. */
  ghost predicate Chained(st: State)
  {
    ChainedLog(st.lastReq, st.link.sent)
  }

  ghost predicate ChainedLog(lastReq: Option<string>, sent: seq<Request>)
  {
    && (lastReq.None? <==> sent == [])
    && (sent != [] ==> lastReq == Some(sent[|sent| - 1].url))
    && forall i {:trigger RefererOf(sent[i])} :: 0 <= i < |sent| ==> RefererOf(sent[i]) == PreviousUrl(sent, i)
  }

  /** The URL of the request before the `i`-th, "" for the first. */
  function PreviousUrl(sent: seq<Request>, i: nat): string
    requires i < |sent|
  {
    if i == 0 then "" else sent[i - 1].url
  }

  /** The part get and post share once the request is built: if the URI
      parses, the request is sent, and lastReq becomes its URL whatever the
      reply (the deferred setLastReq). */
  function Issue(malformed: map<string, string>, st: State, req: Request): (r: Step<Document>)
    ensures r.st.token == st.token && r.st.userCode == st.userCode
    ensures req.url in malformed ==> r == Step(st, Err(BadRequest(malformed[req.url])))
    ensures req.url !in malformed ==> r.st.lastReq == Some(req.url) && r.st.link.sent == st.link.sent + [req]
    ensures req.url !in malformed ==> r.res == Outcome(NextReply(st.link))
    ensures req.url !in malformed ==> r.st.link.replies == Remaining(st.link)
    ensures Chained(st) && RefererOf(req) == RefererFor(st.lastReq) ==> Chained(r.st)
  {
    if req.url in malformed then Step(st, Err(BadRequest(malformed[req.url])))
    else
      var (link, reply) := Send(st.link, req);
      ChainedExtend(st.lastReq, st.link.sent, req);
      Step(st.(lastReq := Some(req.url), link := link), Outcome(reply))
  }

  /** Sending a request whose Referer is the previous URL keeps the chain. */
  lemma ChainedExtend(lastReq: Option<string>, sent: seq<Request>, req: Request)
    ensures ChainedLog(lastReq, sent) && RefererOf(req) == RefererFor(lastReq) ==> ChainedLog(Some(req.url), sent + [req])
  {
    if ChainedLog(lastReq, sent) && RefererOf(req) == RefererFor(lastReq) {
      var sent' := sent + [req];
      forall i | 0 <= i < |sent'|
        ensures RefererOf(sent'[i]) == PreviousUrl(sent', i)
      {
        if i < |sent| {
          assert sent'[i] == sent[i];
          if i > 0 {
            assert sent'[i - 1] == sent[i - 1];
          }
        } else {
          assert sent'[i] == req;
          if i > 0 {
            assert sent'[i - 1] == sent[|sent| - 1];
          }
        }
      }
    }
  }

  /** get */
  function Get(malformed: map<string, string>, st: State, uri: string): (r: Step<Document>)
    ensures r.st.token == st.token && r.st.userCode == st.userCode
    ensures Chained(st) ==> Chained(r.st)
    ensures uri in malformed ==> r == Step(st, Err(BadRequest(malformed[uri])))
    ensures uri !in malformed ==> r.st.lastReq == Some(uri) && r.st.link.sent == st.link.sent + [GetRequest(uri, st.lastReq)]
    ensures uri !in malformed ==> r.res == Outcome(NextReply(st.link)) && r.st.link.replies == Remaining(st.link)
  {
    Issue(malformed, st, GetRequest(uri, st.lastReq))
  }

  /** post, addressed by a whole URI */
  function PostUri(malformed: map<string, string>, st: State, uri: string, form: map<string, string>): (r: Step<Document>)
    ensures r.st.token == st.token && r.st.userCode == st.userCode
    ensures Chained(st) ==> Chained(r.st)
    ensures uri in malformed ==> r == Step(st, Err(BadRequest(malformed[uri])))
    ensures uri !in malformed ==> r.st.lastReq == Some(uri) && r.st.link.sent == st.link.sent + [PostRequest(uri, st.token, st.lastReq, form)]
    ensures uri !in malformed ==> r.res == Outcome(NextReply(st.link)) && r.st.link.replies == Remaining(st.link)
  {
    Issue(malformed, st, PostRequest(uri, st.token, st.lastReq, form))
  }

  /** post(domain, endpoint, body): the target is domain + "/" + endpoint. */
  function Post(malformed: map<string, string>, st: State, domain: string, endpoint: string, form: map<string, string>): (r: Step<Document>)
    ensures r.st.token == st.token && r.st.userCode == st.userCode
    ensures Chained(st) ==> Chained(r.st)
    ensures domain + "/" + endpoint in malformed ==> r == Step(st, Err(BadRequest(malformed[domain + "/" + endpoint])))
    ensures domain + "/" + endpoint !in malformed ==>
      && r.st.lastReq == Some(domain + "/" + endpoint)
      && r.st.link.sent == st.link.sent + [PostRequest(domain + "/" + endpoint, st.token, st.lastReq, form)]
    ensures domain + "/" + endpoint !in malformed ==> r.res == Outcome(NextReply(st.link)) && r.st.link.replies == Remaining(st.link)
  {
    PostUri(malformed, st, domain + "/" + endpoint, form)
  }

  /** get and post fail with the status text, and yield no document,
      exactly when the portal answers with a status other than 200. */
  lemma StatusErrors(malformed: map<string, string>, st: State, req: Request)
    requires req.url !in malformed && st.link.replies != []
    ensures var r := Issue(malformed, st, req);
      && (r.res.Err? && r.res.error.StatusError? <==> st.link.replies[0].Response? && st.link.replies[0].code != 200)
      && (r.res.Err? && r.res.error.StatusError? ==> r.res.error.status == st.link.replies[0].status)
  {
  }

  /** The method and URL of a request. */
  function Target(req: Request): (Method, string)
  {
    (req.verb, req.url)
  }

  /** `after` extends `before` by requests whose methods and URLs follow
      `plan` from its start; the plan need not be completed. */
  ghost predicate Follows(before: seq<Request>, after: seq<Request>, plan: seq<(Method, string)>)
  {
    && before <= after
    && |after| <= |before| + |plan|
    && forall i {:trigger Target(after[i])} :: |before| <= i < |after| ==> Target(after[i]) == plan[i - |before|]
  }

  /** Following a plan implies following any longer plan it begins. */
  lemma FollowsPrefix(a: seq<Request>, b: seq<Request>, p: seq<(Method, string)>, q: seq<(Method, string)>)
    requires Follows(a, b, p) && p <= q
    ensures Follows(a, b, q)
  {
    forall i | |a| <= i < |b|
      ensures Target(b[i]) == q[i - |a|]
    {
      assert p[i - |a|] == q[i - |a|];
    }
  }

  /** A completed plan followed by a second one follows their concatenation. */
  lemma FollowsThen(a: seq<Request>, b: seq<Request>, c: seq<Request>, p: seq<(Method, string)>, q: seq<(Method, string)>)
    requires Follows(a, b, p) && |b| == |a| + |p|
    requires Follows(b, c, q)
    ensures Follows(a, c, p + q)
  {
    forall i | |a| <= i < |c|
      ensures Target(c[i]) == (p + q)[i - |a|]
    {
      if i < |b| {
        assert c[i] == b[i];
      }
    }
  }
}
