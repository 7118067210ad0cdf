/** Whole sessions against a scripted portal: a login, and a punch once logged in. */
module Scenarios {
  import opened Basics
  import opened Credentials
  import opened Http
  import opened Session
  import LoginFlow
  import PunchFlow

  function Page(status: string, token: Option<string>, href: Option<string>): Reply
  {
    Response(200, status, Html(Document(token, href)))
  }

  /** getToken against a login page that hands out token t. */
  lemma TokenPage(cfg: Config, st: State, status: string, t: string, rest: seq<Reply>)
    requires st.link.replies == [Page(status, Some(t), None)] + rest
    ensures var r := LoginFlow.GetToken(cfg, map[], st);
      && r.res.Ok? && r.st.token == t && r.st.link.replies == rest && |r.st.link.sent| == |st.link.sent| + 1
  {
    LoginFlow.GetTokenWrites(cfg, map[], st);
  }

  /** checkAuthentication and authenticate against a portal that accepts the post. */
  lemma PostsAccepted(cfg: Config, st: State, status: string, rest: seq<Reply>)
    requires st.link.replies == [Page(status, None, None)] + rest
    ensures var r := LoginFlow.CheckAuthentication(cfg, map[], st);
      && r.res.Ok? && r.st.token == st.token && r.st.link.replies == rest && |r.st.link.sent| == |st.link.sent| + 1
    ensures var r := LoginFlow.Authenticate(cfg, map[], st);
      && r.res.Ok? && r.st.token == st.token && r.st.link.replies == rest && |r.st.link.sent| == |st.link.sent| + 1
  {
  }

  /** getUserCode against a redirect page with an anchor href and token t. */
  lemma UserCodePage(cfg: Config, st: State, status: string, t: string, href: string, rest: seq<Reply>)
    requires st.link.replies == [Page(status, Some(t), Some(href))] + rest
    ensures var r := LoginFlow.GetUserCode(cfg, map[], st);
      && r.res.Ok? && r.st.token == t && r.st.userCode == LoginFlow.UserCodeOf(href)
      && r.st.link.replies == rest && |r.st.link.sent| == |st.link.sent| + 1
  {
    LoginFlow.GetUserCodeWrites(cfg, map[], st);
  }

  /** A login against a portal that hands out token t1 on the login page,
      accepts both login posts and shows an anchor href with token t2 after
      login succeeds with the user code of href and token t2, after four
      requests. */
  lemma LoginScenario(cfg: Config, st: State, status: string, t1: string, t2: string, href: string, rest: seq<Reply>)
    requires st.link.replies == [Page(status, Some(t1), None), Page(status, None, None), Page(status, None, None),
                                 Page(status, Some(t2), Some(href))] + rest
    ensures var r := LoginFlow.Login(cfg, map[], st);
      && r.res == Ok(()) && r.st.userCode == LoginFlow.UserCodeOf(href) && r.st.token == t2
      && |r.st.link.sent| == |st.link.sent| + 4 && r.st.link.replies == rest
  {
    var ok := Page(status, None, None);
    var r3 := [Page(status, Some(t2), Some(href))] + rest;
    var r2 := [ok] + r3;
    var r1 := [ok] + r2;
    assert st.link.replies == [Page(status, Some(t1), None)] + r1;
    TokenPage(cfg, st, status, t1, r1);
    var s1 := LoginFlow.GetToken(cfg, map[], st);
    PostsAccepted(cfg, s1.st, status, r2);
    var s2 := LoginFlow.CheckAuthentication(cfg, map[], s1.st);
    PostsAccepted(cfg, s2.st, status, r3);
    var s3 := LoginFlow.Authenticate(cfg, map[], s2.st);
    UserCodePage(cfg, s3.st, status, t2, href, rest);
  }

  /** A login can succeed and still leave the user code empty, when the
      anchor's href has a trailing '/', as in "/acme/u42/": four pieces. */
  lemma LoginWithEmptyUserCode(cfg: Config, st: State, status: string, a: string, b: string, u: string)
    requires '/' !in a && '/' !in b && '/' !in u
    requires st.link.replies == [Page(status, Some("T1"), None), Page(status, None, None),
                                 Page(status, None, None), Page(status, Some("T2"), Some(a + "/" + b + "/" + u + "/"))]
    ensures var r := LoginFlow.Login(cfg, map[], st);
      r.res == Ok(()) && r.st.userCode == "" && r.st.token == "T2"
  {
    assert st.link.replies == st.link.replies + [];
    LoginScenario(cfg, st, status, "T1", "T2", a + "/" + b + "/" + u + "/", []);
    LoginFlow.UserCodeOfTrailingSlash(a, b, u);
  }

  /** Once logged in, a punch whose page hands out token t and whose post is
      accepted succeeds with t as the token; its POST carries the form of the
      clock type, t in its header and the punch page as its Referer. */
  lemma PunchScenario(cfg: Config, st: State, clockType: PunchFlow.ClockType, status: string, t: string, rest: seq<Reply>)
    requires st.userCode != ""
    requires st.link.replies == [Page(status, Some(t), None), Page(status, None, None)] + rest
    ensures var r := PunchFlow.Punchmark(cfg, map[], st, clockType);
      var post := r.st.link.sent[|st.link.sent| + 1];
      && r.res == Ok(()) && r.st.token == t && r.st.userCode == st.userCode
      && |r.st.link.sent| == |st.link.sent| + 2
      && post.form == PunchFlow.PunchForm(clockType)
      && "__RequestVerificationToken" in post.headers && post.headers["__RequestVerificationToken"] == t
      && RefererOf(post) == PunchFlow.PunchmarkPageUri(cfg.tenantCode, st.userCode)
  {
    var s1 := PunchFlow.MovePunchMarkPage(cfg, map[], st);
    assert s1.res.Ok? && s1.st.token == t && s1.st.link.replies == st.link.replies[1..];
    var s2 := PunchFlow.InsertReadDateTime(cfg, map[], s1.st, clockType);
    assert s2.res.Ok?;
  }
}
