/** The client object of client.go, login.go and punchmark.go: its fields
    change in place, and each method is proved to make exactly the change
    the matching function of Session, LoginFlow or PunchFlow describes. */
module Client {
  import opened Basics
  import opened Credentials
  import opened Http
  import opened Session
  import LoginFlow
  import PunchFlow

  class BugyoClient {
    const http: Transport
    const config: Config
    const debug: bool
    var token: string
    var userCode: string
    var lastReq: Option<string>

    /** The client's fields with the portal side of its connection. */
    ghost function Snapshot(): State
      reads this, http
    {
      State(token, userCode, lastReq, http.View())
    }

    /** Built from validated credentials, and every request it has sent
        carries the URL of the one before as its Referer. */
    ghost predicate Valid()
      reads this, http
    {
      Validate(Some(config)).None? && Chained(Snapshot())
    }

    constructor (config: Config, debug: bool, http: Transport)
      requires Validate(Some(config)).None? && http.sent == []
      ensures this.config == config && this.debug == debug && this.http == http
      ensures token == "" && userCode == "" && lastReq == None
      ensures Valid()
    {
      this.http := http;
      this.config := config;
      this.debug := debug;
      token := "";
      userCode := "";
      lastReq := None;
    }

    /** get: GET uri; from the moment the request exists, lastReq becomes uri. */
    method Get(uri: string) returns (r: Result<Document>)
      requires Valid()
      modifies this, http
      ensures Valid()
      ensures Snapshot() == Session.Get(http.malformed, old(Snapshot()), uri).st
      ensures r == Session.Get(http.malformed, old(Snapshot()), uri).res
    {
      if uri in http.malformed {
        return Err(BadRequest(http.malformed[uri]));
      }
      var req := GetRequest(uri, lastReq);
      var reply := http.Do(req);
      lastReq := Some(uri);  // the deferred setLastReq, run on every return path
      r := Outcome(reply);
    }

    /** post to a whole URI: the current token goes in a header. */
    method PostUri(uri: string, form: map<string, string>) returns (r: Result<Document>)
      requires Valid()
      modifies this, http
      ensures Valid()
      ensures Snapshot() == Session.PostUri(http.malformed, old(Snapshot()), uri, form).st
      ensures r == Session.PostUri(http.malformed, old(Snapshot()), uri, form).res
    {
      if uri in http.malformed {
        return Err(BadRequest(http.malformed[uri]));
      }
      ghost var before := Snapshot();
      var req := PostRequest(uri, token, lastReq, form);
      var reply := http.Do(req);
      lastReq := Some(uri);  // the deferred setLastReq; a readable 200 reply sets it once more
      r := Outcome(reply);
      assert Session.PostUri(http.malformed, before, uri, form) == Issue(http.malformed, before, req);
    }

    /** post(domain, endpoint, body) */
    method Post(domain: string, endpoint: string, form: map<string, string>) returns (r: Result<Document>)
      requires Valid()
      modifies this, http
      ensures Valid()
      ensures Snapshot() == Session.Post(http.malformed, old(Snapshot()), domain, endpoint, form).st
      ensures r == Session.Post(http.malformed, old(Snapshot()), domain, endpoint, form).res
    {
      r := PostUri(domain + "/" + endpoint, form);
    }

    // -------------------------------------------------------------------
    // login.go

    method GetToken() returns (r: Result<()>)
      requires Valid()
      modifies this, http
      ensures Valid()
      ensures Snapshot() == LoginFlow.GetToken(config, http.malformed, old(Snapshot())).st
      ensures r == LoginFlow.GetToken(config, http.malformed, old(Snapshot())).res
    {
      var doc := Get(LoginFlow.TenantUri(config));
      if doc.Err? {
        return Err(doc.error);
      }
      match doc.value.token {
        case Some(t) =>
          token := t;
          r := Ok(());
        case None =>
          r := Err(NoToken);
      }
    }

    method CheckAuthentication() returns (r: Result<()>)
      requires Valid()
      modifies this, http
      ensures Valid()
      ensures Snapshot() == LoginFlow.CheckAuthentication(config, http.malformed, old(Snapshot())).st
      ensures r == LoginFlow.CheckAuthentication(config, http.malformed, old(Snapshot())).res
    {
      var body := LoginFlow.CheckAuthenticationForm(config);
      var doc := Post(LoginFlow.TenantUri(config), LoginFlow.CheckAuthenticationEndpoint, body);
      if doc.Err? {
        return Err(doc.error);
      }
      r := Ok(());
    }

    method Authenticate() returns (r: Result<()>)
      requires Valid()
      modifies this, http
      ensures Valid()
      ensures Snapshot() == LoginFlow.Authenticate(config, http.malformed, old(Snapshot())).st
      ensures r == LoginFlow.Authenticate(config, http.malformed, old(Snapshot())).res
    {
      var body := LoginFlow.AuthenticateForm(config, token);
      var doc := Post(LoginFlow.TenantUri(config), LoginFlow.LoginEndpoint, body);
      if doc.Err? {
        return Err(doc.error);
      }
      r := Ok(());
    }

    method GetUserCode() returns (r: Result<()>)
      requires Valid()
      modifies this, http
      ensures Valid()
      ensures Snapshot() == LoginFlow.GetUserCode(config, http.malformed, old(Snapshot())).st
      ensures r == LoginFlow.GetUserCode(config, http.malformed, old(Snapshot())).res
    {
      var doc := Get(LoginFlow.RedirectUri(config));
      if doc.Err? {
        return Err(doc.error);
      }
      userCode := "";
      match doc.value.appRoot {
        case Some(href) =>
          userCode := LoginFlow.UserCodeOf(href);
        case None =>
          return Err(NoUserCode);
      }
      match doc.value.token {
        case Some(t) =>
          token := t;
        case None =>
          return Err(NoToken);
      }
      r := Ok(());
    }

    method Login() returns (r: Result<()>)
      requires Valid()
      modifies this, http
      ensures Valid()
      ensures Snapshot() == LoginFlow.Login(config, http.malformed, old(Snapshot())).st
      ensures r == LoginFlow.Login(config, http.malformed, old(Snapshot())).res
    {
      r := GetToken();
      if r.Err? {
        return;
      }
      r := CheckAuthentication();
      if r.Err? {
        return;
      }
      r := Authenticate();
      if r.Err? {
        return;
      }
      r := GetUserCode();
    }

    method IsLoggedIn() returns (loggedIn: bool)
      requires Valid()
      modifies this, http
      ensures Valid()
      ensures (Snapshot(), loggedIn) == LoginFlow.IsLoggedIn(config, http.malformed, old(Snapshot()))
    {
      var r := GetUserCode();
      if r.Err? {
        return false;
      }
      loggedIn := userCode != "";
    }

    // -------------------------------------------------------------------
    // punchmark.go

    method MovePunchMarkPage() returns (r: Result<()>)
      requires Valid()
      modifies this, http
      ensures Valid()
      ensures Snapshot() == PunchFlow.MovePunchMarkPage(config, http.malformed, old(Snapshot())).st
      ensures r == PunchFlow.MovePunchMarkPage(config, http.malformed, old(Snapshot())).res
    {
      if userCode == "" {
        return Err(LoginRequired);
      }
      var doc := Get(PunchFlow.PunchmarkPageUri(config.tenantCode, userCode));
      if doc.Err? {
        return Err(doc.error);
      }
      match doc.value.token {
        case Some(t) =>
          token := t;
          r := Ok(());
        case None =>
          r := Err(NoToken);
      }
    }

    method InsertReadDateTime(clockType: PunchFlow.ClockType) returns (r: Result<()>)
      requires Valid()
      modifies this, http
      ensures Valid()
      ensures Snapshot() == PunchFlow.InsertReadDateTime(config, http.malformed, old(Snapshot()), clockType).st
      ensures r == PunchFlow.InsertReadDateTime(config, http.malformed, old(Snapshot()), clockType).res
    {
      if userCode == "" {
        return Err(LoginRequired);
      }
      var uri := PunchFlow.InsertReadDateTimeUri(config.tenantCode, userCode);
      var doc := PostUri(uri, PunchFlow.PunchForm(clockType));
      if doc.Err? {
        return Err(doc.error);
      }
      r := Ok(());
    }

    method Punchmark(clockType: PunchFlow.ClockType) returns (r: Result<()>)
      requires Valid()
      modifies this, http
      ensures Valid()
      ensures Snapshot() == PunchFlow.Punchmark(config, http.malformed, old(Snapshot()), clockType).st
      ensures r == PunchFlow.Punchmark(config, http.malformed, old(Snapshot()), clockType).res
    {
      r := MovePunchMarkPage();
      if r.Err? {
        return;
      }
      r := InsertReadDateTime(clockType);
    }
  }

  /** NewClient: apply the options, give the client its own transport
      (cookie jar included), then check the credentials. */
  method NewClient(config: Option<Config>, opts: seq<Opt>, replies: seq<Reply>, malformed: map<string, string>)
    returns (c: BugyoClient?, err: Option<Error>)
    ensures err == Validate(config)
    ensures c == null <==> err.Some?
    ensures c != null ==>
      && fresh(c) && fresh(c.http) && c.Valid()
      && c.config == config.value && c.debug == (WithDebug in opts)
      && c.token == "" && c.userCode == "" && c.lastReq == None
      && c.http.replies == replies && c.http.sent == [] && c.http.malformed == malformed
  {
    var ops := ApplyOptions(opts);
    var http := new Transport(replies, malformed);
    err := Validate(config);
    if err.Some? {
      return null, err;
    }
    c := new BugyoClient(config.value, ops.debug, http);
  }
}
