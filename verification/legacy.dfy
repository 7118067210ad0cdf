/** client/client.go: the older copy of the client. It validates its
    credentials like the current one, and its get and post send the same
    requests except that they never attach a Referer; they change no field
    of the client. */
module LegacyClient {
  import opened Basics
  import opened Credentials
  import opened Http
  import Session

  /** No request in the log carries a Referer header. */
  ghost predicate NoReferer(sent: seq<Request>)
  {
    forall i :: 0 <= i < |sent| ==> "Referer" !in sent[i].headers
  }

  /** get: the request carries only the User-Agent header. */
  function GetOutcome(malformed: map<string, string>, link: Link, uri: string): (r: (Link, Result<Document>))
    ensures uri in malformed ==> r == (link, Err(BadRequest(malformed[uri])))
    ensures uri !in malformed ==> r.0.sent == link.sent + [Request(GET, uri, map["User-Agent" := UserAgent], map[])]
    ensures uri !in malformed ==> r.1 == Outcome(NextReply(link)) && r.0.replies == Remaining(link)
    ensures NoReferer(link.sent) ==> NoReferer(r.0.sent)
  {
    if uri in malformed then (link, Err(BadRequest(malformed[uri])))
    else
      var req := Session.GetRequest(uri, None);  // no previous URL: no Referer
      var (l, reply) := Send(link, req);
      (l, Outcome(reply))
  }

  /** post(domain, endpoint, body): to domain + "/" + endpoint, with the
      given token in the __RequestVerificationToken header. */
  function PostOutcome(malformed: map<string, string>, link: Link, token: string, domain: string, endpoint: string, form: map<string, string>): (r: (Link, Result<Document>))
    ensures domain + "/" + endpoint in malformed ==> r == (link, Err(BadRequest(malformed[domain + "/" + endpoint])))
    ensures domain + "/" + endpoint !in malformed ==>
      && |r.0.sent| == |link.sent| + 1 && link.sent <= r.0.sent
      && var req := r.0.sent[|link.sent|];
      && req.verb == POST && req.url == domain + "/" + endpoint && req.form == form
      && "__RequestVerificationToken" in req.headers && req.headers["__RequestVerificationToken"] == token
      && "Referer" !in req.headers
    ensures domain + "/" + endpoint !in malformed ==>
      && r.0.sent == link.sent + [Session.PostRequest(domain + "/" + endpoint, token, None, form)]
      && r.1 == Outcome(NextReply(link)) && r.0.replies == Remaining(link)
    ensures NoReferer(link.sent) ==> NoReferer(r.0.sent)
  {
    var uri := domain + "/" + endpoint;
    if uri in malformed then (link, Err(BadRequest(malformed[uri])))
    else
      var req := Session.PostRequest(uri, token, None, form);  // no previous URL: no Referer
      var (l, reply) := Send(link, req);
      (l, Outcome(reply))
  }

  /** get and post fail with the status text exactly when the portal answers
      with a status other than 200. */
  lemma LegacyStatusErrors(malformed: map<string, string>, link: Link, token: string, uri: string, domain: string, endpoint: string, form: map<string, string>)
    requires link.replies != []
    ensures var g := GetOutcome(malformed, link, uri).1;
      uri !in malformed ==>
        && (g.Err? && g.error.StatusError? <==> link.replies[0].Response? && link.replies[0].code != 200)
        && (g.Err? && g.error.StatusError? ==> g.error.status == link.replies[0].status)
    ensures var p := PostOutcome(malformed, link, token, domain, endpoint, form).1;
      domain + "/" + endpoint !in malformed ==>
        && (p.Err? && p.error.StatusError? <==> link.replies[0].Response? && link.replies[0].code != 200)
        && (p.Err? && p.error.StatusError? ==> p.error.status == link.replies[0].status)
  {
  }

  class BugyoClient {
    const http: Transport
    const config: Config
    const debug: bool
    var token: string
    var userCode: string

    constructor (config: Config, debug: bool, http: Transport)
      requires Validate(Some(config)).None?
      ensures this.config == config && this.debug == debug && this.http == http
      ensures token == "" && userCode == ""
    {
      this.http := http;
      this.config := config;
      this.debug := debug;
      token := "";
      userCode := "";
    }

    method Get(uri: string) returns (r: Result<Document>)
      modifies http
      ensures (http.View(), r) == GetOutcome(http.malformed, old(http.View()), uri)
      ensures token == old(token) && userCode == old(userCode)
    {
      if uri in http.malformed {
        return Err(BadRequest(http.malformed[uri]));
      }
      var reply := http.Do(Session.GetRequest(uri, None));
      r := Outcome(reply);
    }

    method Post(domain: string, endpoint: string, form: map<string, string>) returns (r: Result<Document>)
      modifies http
      ensures (http.View(), r) == PostOutcome(http.malformed, old(http.View()), token, domain, endpoint, form)
      ensures token == old(token) && userCode == old(userCode)
    {
      var uri := domain + "/" + endpoint;
      if uri in http.malformed {
        return Err(BadRequest(http.malformed[uri]));
      }
      var reply := http.Do(Session.PostRequest(uri, token, None, form));
      r := Outcome(reply);
    }
  }

  /** NewClient(config, debug): check the credentials, then build a client
      with its own transport and the given debug flag. */
  method NewClient(config: Option<Config>, debug: bool, replies: seq<Reply>, malformed: map<string, string>)
    returns (c: BugyoClient?, err: Option<Error>)
    ensures err == Validate(config)
    ensures c == null <==> err.Some?
    ensures c != null ==>
      && fresh(c) && fresh(c.http)
      && c.config == config.value && c.debug == debug && c.token == "" && c.userCode == ""
      && c.http.replies == replies && c.http.sent == [] && c.http.malformed == malformed
  {
    var http := new Transport(replies, malformed);
    err := Validate(config);
    if err.Some? {
      return null, err;
    }
    c := new BugyoClient(config.value, debug, http);
  }
}
