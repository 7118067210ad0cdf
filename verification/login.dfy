/** login.go as functions on the session state: the four steps of a login,
    the user-code rule and the login probe. */
module LoginFlow {
  import opened Basics
  import opened Credentials
  import opened Http
  import opened Strings
  import opened Session

  /** https://id.obc.jp/{tenantCode}: the login page, and the domain the login posts go to. */
  function TenantUri(cfg: Config): (uri: string)
    ensures |uri| == |BaseUri| + 1 + |cfg.tenantCode|
    ensures uri[..|BaseUri|] == BaseUri && uri[|BaseUri|] == '/' && uri[|BaseUri| + 1..] == cfg.tenantCode
  {
    BaseUri + "/" + cfg.tenantCode
  }

  const CheckAuthenticationEndpoint := "login/CheckAuthenticationMethod"
  const LoginEndpoint := "login/login/?Length=5"

  /** https://id.obc.jp/{tenantCode}/omredirect/redirect/ */
  function RedirectUri(cfg: Config): (uri: string)
    ensures |uri| == |TenantUri(cfg)| + |"/omredirect/redirect/"|
    ensures uri[..|TenantUri(cfg)|] == TenantUri(cfg) && uri[|TenantUri(cfg)|..] == "/omredirect/redirect/"
  {
    BaseUri + "/" + cfg.tenantCode + "/omredirect/redirect/"
  }

  function CheckAuthenticationForm(cfg: Config): (form: map<string, string>)
    ensures form.Keys == {"OBCiD", "isBugyoCloud"}
    ensures form["OBCiD"] == cfg.obcId && form["isBugyoCloud"] == "false"
  {
    map["OBCiD" := cfg.obcId, "isBugyoCloud" := "false"]
  }

  function AuthenticateForm(cfg: Config, token: string): (form: map<string, string>)
    ensures form.Keys == {"OBCiD", "Password", "__RequestVerificationToken", "X-Requested-With"}
    ensures form["OBCiD"] == cfg.obcId && form["Password"] == cfg.password
    ensures form["__RequestVerificationToken"] == token && form["X-Requested-With"] == "XMLHttpRequest"
  {
    map[
      "OBCiD" := cfg.obcId,
      "Password" := cfg.password,
      "__RequestVerificationToken" := token,
      "X-Requested-With" := "XMLHttpRequest"]
  }

  /** The methods and URLs of a complete login, in order. */
  function LoginPlan(cfg: Config): seq<(Method, string)>
  {
    [(GET, TenantUri(cfg))]
      + [(POST, TenantUri(cfg) + "/" + CheckAuthenticationEndpoint)]
      + [(POST, TenantUri(cfg) + "/" + LoginEndpoint)]
      + [(GET, RedirectUri(cfg))]
  }

  /** The user code in an #ApplicationRoot href: the third piece of the
      href split at '/', when there are exactly three pieces, else "". */
  function UserCodeOf(href: string): (userCode: string)
    ensures '/' !in userCode
    ensures Count(href, '/') != 2 ==> userCode == ""
  {
    var pieces := Split(href, '/');
    if |pieces| == 3 then pieces[2] else ""
  }

  /** getToken: GET the login page and keep its token. */
  function GetToken(cfg: Config, malformed: map<string, string>, st: State): (r: Step<()>)
    ensures r.st.userCode == st.userCode
    ensures Chained(st) ==> Chained(r.st)
    ensures Follows(st.link.sent, r.st.link.sent, [(GET, TenantUri(cfg))])
    ensures r.res.Ok? ==> |r.st.link.sent| == |st.link.sent| + 1
    ensures r.res.Err? ==> r.st.token == st.token
  {
    var g := Get(malformed, st, TenantUri(cfg));
    if g.res.Err? then Failed(g)
    else
      match g.res.value.token
      case Some(t) => Step(g.st.(token := t), Ok(()))
      case None => Step(g.st, Err(NoToken))
  }

  /** checkAuthentication: POST the account id; the reply's body is ignored. */
  function CheckAuthentication(cfg: Config, malformed: map<string, string>, st: State): (r: Step<()>)
    ensures r.st.token == st.token && r.st.userCode == st.userCode
    ensures Chained(st) ==> Chained(r.st)
    ensures Follows(st.link.sent, r.st.link.sent, [(POST, TenantUri(cfg) + "/" + CheckAuthenticationEndpoint)])
    ensures r.res.Ok? ==> |r.st.link.sent| == |st.link.sent| + 1
    ensures |r.st.link.sent| > |st.link.sent| ==> r.st.link.sent[|st.link.sent|].form == CheckAuthenticationForm(cfg)
    ensures var p := Post(malformed, st, TenantUri(cfg), CheckAuthenticationEndpoint, CheckAuthenticationForm(cfg));
      && r.st == p.st
      && (p.res.Ok? ==> r.res == Ok(()))
      && (p.res.Err? ==> r.res == Err(p.res.error))
  {
    var p := Post(malformed, st, TenantUri(cfg), CheckAuthenticationEndpoint, CheckAuthenticationForm(cfg));
    if p.res.Err? then Failed(p) else Step(p.st, Ok(()))
  }

  /** authenticate: POST the credentials with the current token in the body too. */
  function Authenticate(cfg: Config, malformed: map<string, string>, st: State): (r: Step<()>)
    ensures r.st.token == st.token && r.st.userCode == st.userCode
    ensures Chained(st) ==> Chained(r.st)
    ensures Follows(st.link.sent, r.st.link.sent, [(POST, TenantUri(cfg) + "/" + LoginEndpoint)])
    ensures r.res.Ok? ==> |r.st.link.sent| == |st.link.sent| + 1
    ensures |r.st.link.sent| > |st.link.sent| ==> r.st.link.sent[|st.link.sent|] == PostRequest(TenantUri(cfg) + "/" + LoginEndpoint, st.token, st.lastReq, AuthenticateForm(cfg, st.token))
    ensures var p := Post(malformed, st, TenantUri(cfg), LoginEndpoint, AuthenticateForm(cfg, st.token));
      && r.st == p.st
      && (p.res.Ok? ==> r.res == Ok(()))
      && (p.res.Err? ==> r.res == Err(p.res.error))
  {
    var p := Post(malformed, st, TenantUri(cfg), LoginEndpoint, AuthenticateForm(cfg, st.token));
    if p.res.Err? then Failed(p) else Step(p.st, Ok(()))
  }

  /** getUserCode: GET the post-login redirect page; read the user code from
      its #ApplicationRoot anchor and the new token from its input. */
  function GetUserCode(cfg: Config, malformed: map<string, string>, st: State): (r: Step<()>)
    ensures Chained(st) ==> Chained(r.st)
    ensures Follows(st.link.sent, r.st.link.sent, [(GET, RedirectUri(cfg))])
    ensures r.res.Ok? ==> |r.st.link.sent| == |st.link.sent| + 1
  {
    var g := Get(malformed, st, RedirectUri(cfg));
    if g.res.Err? then Failed(g)
    else
      var page := g.res.value;
      var cleared := g.st.(userCode := "");
      match page.appRoot
      case None => Step(cleared, Err(NoUserCode))
      case Some(href) =>
        var coded := cleared.(userCode := UserCodeOf(href));
        match page.token
        case Some(t) => Step(coded.(token := t), Ok(()))
        case None => Step(coded, Err(NoToken))
  }

  /** Login: the four steps in order; the first error ends the login. It
      succeeds exactly when all four steps do, and otherwise returns the
      error, and the state, of the first step that failed. */
  function Login(cfg: Config, malformed: map<string, string>, st: State): (r: Step<()>)
    ensures Chained(st) ==> Chained(r.st)
    ensures var s1 := GetToken(cfg, malformed, st);
      var s2 := CheckAuthentication(cfg, malformed, s1.st);
      var s3 := Authenticate(cfg, malformed, s2.st);
      var s4 := GetUserCode(cfg, malformed, s3.st);
      && (r.res.Ok? <==> s1.res.Ok? && s2.res.Ok? && s3.res.Ok? && s4.res.Ok?)
      && (s1.res.Err? ==> r == s1)
      && (s1.res.Ok? && s2.res.Err? ==> r == s2)
      && (s1.res.Ok? && s2.res.Ok? && s3.res.Err? ==> r == s3)
      && (s1.res.Ok? && s2.res.Ok? && s3.res.Ok? ==> r == s4)
  {
    var s1 := GetToken(cfg, malformed, st);
    if s1.res.Err? then s1
    else
      var s2 := CheckAuthentication(cfg, malformed, s1.st);
      if s2.res.Err? then s2
      else
        var s3 := Authenticate(cfg, malformed, s2.st);
        if s3.res.Err? then s3
        else GetUserCode(cfg, malformed, s3.st)
  }

  /** IsLoggedIn: rerun getUserCode and report whether it found a user code. */
  function IsLoggedIn(cfg: Config, malformed: map<string, string>, st: State): (r: (State, bool))
    ensures Chained(st) ==> Chained(r.0)
    ensures r.0 == GetUserCode(cfg, malformed, st).st
  {
    var s := GetUserCode(cfg, malformed, st);
    (s.st, s.res.Ok? && s.st.userCode != "")
  }

  /** getToken writes the token only when the login page loads and has the
      token input, and then to that input's value; a page without it gives
      "no token". */
  lemma GetTokenWrites(cfg: Config, malformed: map<string, string>, st: State)
    ensures var r := GetToken(cfg, malformed, st);
      var g := Get(malformed, st, TenantUri(cfg));
      && (r.res.Ok? <==> g.res.Ok? && g.res.value.token.Some?)
      && (r.res.Ok? ==> r.st.token == g.res.value.token.value)
      && (g.res.Ok? && g.res.value.token.None? ==> r.res == Err(NoToken))
      && (g.res.Err? ==> r.res == Err(g.res.error))
  {
  }

  /** What getUserCode writes: nothing when the page does not load;
      otherwise the user code becomes "" or the code in the anchor's href,
      and the token is replaced only when the anchor and the token input are
      both present. A missing anchor gives "no user code", a missing token
      "no token". */
  lemma GetUserCodeWrites(cfg: Config, malformed: map<string, string>, st: State)
    ensures var r := GetUserCode(cfg, malformed, st);
      var g := Get(malformed, st, RedirectUri(cfg));
      && (g.res.Err? ==> r.st == g.st && r.st.userCode == st.userCode && r.st.token == st.token && r.res == Err(g.res.error))
      && (g.res.Ok? ==> var page := g.res.value;
           && r.st.userCode == (if page.appRoot.Some? then UserCodeOf(page.appRoot.value) else "")
           && (page.appRoot.None? ==> r.res == Err(NoUserCode) && r.st.token == st.token)
           && (page.appRoot.Some? && page.token.None? ==> r.res == Err(NoToken) && r.st.token == st.token)
           && (page.appRoot.Some? && page.token.Some? ==> r.res == Ok(()) && r.st.token == page.token.value))
  {
  }

  // ---------------------------------------------------------------------
  // The user-code rule

  /** A href of the shape a/b/u with no '/' inside a, b or u yields u. */
  lemma UserCodeOfPath(a: string, b: string, u: string)
    requires '/' !in a && '/' !in b && '/' !in u
    ensures UserCodeOf(a + "/" + b + "/" + u) == u
  {
    var pieces := [a, b, u];
    assert pieces[1..] == [b, u] && [b, u][1..] == [u];
    assert Join([u], '/') == u;
    assert Join([b, u], '/') == b + "/" + u;
    assert Join(pieces, '/') == a + "/" + (b + "/" + u);
    assert a + "/" + (b + "/" + u) == a + "/" + b + "/" + u;
    SplitJoin(pieces, '/');
  }

  /** A href of the shape a/b/u/ (a trailing '/') has four pieces and yields "". */
  lemma UserCodeOfTrailingSlash(a: string, b: string, u: string)
    requires '/' !in a && '/' !in b && '/' !in u
    ensures UserCodeOf(a + "/" + b + "/" + u + "/") == ""
  {
    var pieces := [a, b, u, ""];
    assert pieces[1..] == [b, u, ""] && [b, u, ""][1..] == [u, ""] && [u, ""][1..] == [""];
    assert Join([u, ""], '/') == u + "/";
    assert Join([b, u, ""], '/') == b + "/" + (u + "/");
    assert Join(pieces, '/') == a + "/" + (b + "/" + (u + "/"));
    assert a + "/" + (b + "/" + (u + "/")) == a + "/" + b + "/" + u + "/";
    SplitJoin(pieces, '/');
  }

  /** Conversely, a non-empty user code comes only from a href with exactly
      two '/', and it is the '/'-free text after the second one. */
  lemma UserCodeOfShape(href: string)
    ensures Count(href, '/') != 2 ==> UserCodeOf(href) == ""
    ensures UserCodeOf(href) != "" ==>
      var pieces := Split(href, '/');
      && Count(href, '/') == 2
      && '/' !in UserCodeOf(href)
      && href == pieces[0] + "/" + pieces[1] + "/" + UserCodeOf(href)
  {
    var pieces := Split(href, '/');
    JoinSplit(href, '/');
    if |pieces| == 3 {
      JoinThree(pieces);
    }
  }

  /** Joining three pieces puts a '/' between each pair. */
  lemma JoinThree(pieces: seq<string>)
    requires |pieces| == 3
    ensures Join(pieces, '/') == pieces[0] + "/" + pieces[1] + "/" + pieces[2]
  {
    var a, b, u := pieces[0], pieces[1], pieces[2];
    assert pieces == [a, b, u];
    assert pieces[1..] == [b, u] && [b, u][1..] == [u];
    assert Join([u], '/') == u;
    assert Join([b, u], '/') == b + "/" + u;
    assert a + "/" + (b + "/" + u) == a + "/" + b + "/" + u;
  }

  lemma UserCodeExamples()
    ensures UserCodeOf("/t/u") == "u"
    ensures UserCodeOf("/t/u/") == ""
    ensures UserCodeOf("/t") == ""
  {
    UserCodeOfPath("", "t", "u");
    assert "" + "/" + "t" + "/" + "u" == "/t/u";
    UserCodeOfShape("/t/u/");
    UserCodeOfShape("/t");
  }

  // ---------------------------------------------------------------------
  // The login chain

  /** A login issues the requests of LoginPlan in order, as far as it gets,
      and a successful login sent all four. */
  lemma LoginFollowsPlan(cfg: Config, malformed: map<string, string>, st: State)
    ensures Follows(st.link.sent, Login(cfg, malformed, st).st.link.sent, LoginPlan(cfg))
  {
    var plan := LoginPlan(cfg);
    var sent := st.link.sent;
    var p1 := [(GET, TenantUri(cfg))];
    var p2 := p1 + [(POST, TenantUri(cfg) + "/" + CheckAuthenticationEndpoint)];
    var p3 := p2 + [(POST, TenantUri(cfg) + "/" + LoginEndpoint)];
    var s1 := GetToken(cfg, malformed, st);
    if s1.res.Err? {
      FollowsPrefix(sent, s1.st.link.sent, p1, plan);
    } else {
      var s2 := CheckAuthentication(cfg, malformed, s1.st);
      FollowsThen(sent, s1.st.link.sent, s2.st.link.sent, p1, [(POST, TenantUri(cfg) + "/" + CheckAuthenticationEndpoint)]);
      if s2.res.Err? {
        FollowsPrefix(sent, s2.st.link.sent, p2, plan);
      } else {
        var s3 := Authenticate(cfg, malformed, s2.st);
        FollowsThen(sent, s2.st.link.sent, s3.st.link.sent, p2, [(POST, TenantUri(cfg) + "/" + LoginEndpoint)]);
        if s3.res.Err? {
          FollowsPrefix(sent, s3.st.link.sent, p3, plan);
        } else {
          var s4 := GetUserCode(cfg, malformed, s3.st);
          FollowsThen(sent, s3.st.link.sent, s4.st.link.sent, p3, [(GET, RedirectUri(cfg))]);
        }
      }
    }
  }

  /** A successful login sent exactly four requests. */
  lemma LoginSendsFour(cfg: Config, malformed: map<string, string>, st: State)
    ensures Login(cfg, malformed, st).res.Ok? ==> |Login(cfg, malformed, st).st.link.sent| == |st.link.sent| + 4
  {
  }

  /** Abort on the first error: the second request (a POST) is only sent
      after getToken succeeded, the third only after checkAuthentication
      succeeded and the fourth only after authenticate succeeded. */
  lemma LoginStopsAtFirstError(cfg: Config, malformed: map<string, string>, st: State)
    ensures var n := |Login(cfg, malformed, st).st.link.sent| - |st.link.sent|;
      var s1 := GetToken(cfg, malformed, st);
      var s2 := CheckAuthentication(cfg, malformed, s1.st);
      var s3 := Authenticate(cfg, malformed, s2.st);
      && (n >= 2 ==> s1.res.Ok?)
      && (n >= 3 ==> s1.res.Ok? && s2.res.Ok?)
      && (n == 4 ==> s1.res.Ok? && s2.res.Ok? && s3.res.Ok?)
  {
    var s1 := GetToken(cfg, malformed, st);
    if s1.res.Ok? {
      var s2 := CheckAuthentication(cfg, malformed, s1.st);
      if s2.res.Ok? {
        var s3 := Authenticate(cfg, malformed, s2.st);
      }
    }
  }

  /** The authentication POST carries the current token twice: in its
      body and in its __RequestVerificationToken header. */
  lemma AuthenticateEchoesToken(cfg: Config, malformed: map<string, string>, st: State)
    requires TenantUri(cfg) + "/" + LoginEndpoint !in malformed
    ensures var r := Authenticate(cfg, malformed, st);
      var req := r.st.link.sent[|st.link.sent|];
      && |r.st.link.sent| == |st.link.sent| + 1
      && req.form["__RequestVerificationToken"] == st.token
      && req.headers["__RequestVerificationToken"] == st.token
  {
  }

  /** When the login page has no token, the login fails with "no token"
      after its first request and sends nothing else. */
  lemma LoginNoToken(cfg: Config, malformed: map<string, string>, st: State, status: string, href: Option<string>)
    requires TenantUri(cfg) !in malformed
    requires st.link.replies != [] && st.link.replies[0] == Response(200, status, Html(Document(None, href)))
    ensures var r := Login(cfg, malformed, st);
      && r.res == Err(NoToken)
      && |r.st.link.sent| == |st.link.sent| + 1
      && r.st.token == st.token && r.st.userCode == st.userCode
  {
  }

  /** IsLoggedIn answers true exactly when the redirect page loads, has an
      anchor whose href yields a non-empty user code, and has a token. */
  lemma IsLoggedInIff(cfg: Config, malformed: map<string, string>, st: State)
    ensures var g := Get(malformed, st, RedirectUri(cfg));
      IsLoggedIn(cfg, malformed, st).1 <==>
        && g.res.Ok?
        && g.res.value.appRoot.Some? && UserCodeOf(g.res.value.appRoot.value) != ""
        && g.res.value.token.Some?
  {
  }
}
