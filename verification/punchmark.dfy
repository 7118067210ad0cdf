/** punchmark.go as functions on the session state: the clock types, the
    punch page and the punch submission. */
module PunchFlow {
  import opened Basics
  import opened Credentials
  import opened Http
  import opened Session

  /** ClockType is a string type; these four constants are its named values. */
  datatype ClockType = ClockType(value: string)

  const ClockTypeClockIn := ClockType("ClockIn")
  const ClockTypeClockOut := ClockType("ClockOut")
  const ClockTypeGoOut := ClockType("GoOut")
  const ClockTypeReturned := ClockType("Returned")

  /** The fixed position every punch reports (Tokyo station). */
  const Latitude := "35.6812"
  const Longitude := "139.7671"

  /** The host of the time-clock pages. */
  const PunchHost := "https://hromssp.obc.jp/"

  /** The part of a time-clock URL that names the user: host/tenant/user/. */
  function UserBase(tenantCode: string, userCode: string): string
  {
    PunchHost + tenantCode + "/" + userCode + "/"
  }

  /** urlPunchmarkPage filled with the tenant and user codes. */
  function PunchmarkPageUri(tenantCode: string, userCode: string): (uri: string)
    ensures var base := UserBase(tenantCode, userCode);
      && |uri| == |base| + |"timeclock/punchmark/"|
      && uri[..|base|] == base && uri[|base|..] == "timeclock/punchmark/"
  {
    UserBase(tenantCode, userCode) + "timeclock/punchmark/"
  }

  /** urlInsertReadDateTime filled with the tenant and user codes. */
  function InsertReadDateTimeUri(tenantCode: string, userCode: string): (uri: string)
    ensures var base := UserBase(tenantCode, userCode);
      && |uri| == |base| + |"TimeClock/InsertReadDateTime/"|
      && uri[..|base|] == base && uri[|base|..] == "TimeClock/InsertReadDateTime/"
  {
    UserBase(tenantCode, userCode) + "TimeClock/InsertReadDateTime/"
  }

  /** The body of a punch. */
  function PunchForm(clockType: ClockType): (form: map<string, string>)
    ensures form.Keys == {"ClockType", "LaborSystemID", "LaborSystemCode", "LaborSystemName",
                          "PositionLatitude", "PositionLongitude", "PositionAccuracy"}
    ensures form["ClockType"] == clockType.value
    ensures form["LaborSystemID"] == "0" && form["LaborSystemCode"] == "" && form["LaborSystemName"] == ""
    ensures form["PositionLatitude"] == Latitude && form["PositionLongitude"] == Longitude && form["PositionAccuracy"] == "0"
  {
    map[
      "ClockType" := clockType.value,
      "LaborSystemID" := "0",
      "LaborSystemCode" := "",
      "LaborSystemName" := "",
      "PositionLatitude" := Latitude,
      "PositionLongitude" := Longitude,
      "PositionAccuracy" := "0"]
  }

  /** movePunchMarkPage: with a user code, GET the punch page and keep its token. */
  function MovePunchMarkPage(cfg: Config, malformed: map<string, string>, st: State): (r: Step<()>)
    ensures r.st.userCode == st.userCode
    ensures Chained(st) ==> Chained(r.st)
    ensures st.userCode == "" ==> r == Step(st, Err(LoginRequired))
    ensures Follows(st.link.sent, r.st.link.sent, [(GET, PunchmarkPageUri(cfg.tenantCode, st.userCode))])
    ensures r.res.Ok? ==> |r.st.link.sent| == |st.link.sent| + 1
    ensures r.res.Err? ==> r.st.token == st.token
  {
    if st.userCode == "" then Step(st, Err(LoginRequired))
    else
      var g := Get(malformed, st, PunchmarkPageUri(cfg.tenantCode, st.userCode));
      if g.res.Err? then Failed(g)
      else
        match g.res.value.token
        case Some(t) => Step(g.st.(token := t), Ok(()))
        case None => Step(g.st, Err(NoToken))
  }

  /** insertReadDateTime: with a user code, POST the punch form. */
  function InsertReadDateTime(cfg: Config, malformed: map<string, string>, st: State, clockType: ClockType): (r: Step<()>)
    ensures r.st.token == st.token && r.st.userCode == st.userCode
    ensures Chained(st) ==> Chained(r.st)
    ensures st.userCode == "" ==> r == Step(st, Err(LoginRequired))
    ensures Follows(st.link.sent, r.st.link.sent, [(POST, InsertReadDateTimeUri(cfg.tenantCode, st.userCode))])
    ensures |r.st.link.sent| > |st.link.sent| ==>
      r.st.link.sent[|st.link.sent|] == PostRequest(InsertReadDateTimeUri(cfg.tenantCode, st.userCode), st.token, st.lastReq, PunchForm(clockType))
    ensures st.userCode != "" ==>
      var p := PostUri(malformed, st, InsertReadDateTimeUri(cfg.tenantCode, st.userCode), PunchForm(clockType));
      && r.st == p.st
      && (p.res.Ok? ==> r.res == Ok(()))
      && (p.res.Err? ==> r.res == Err(p.res.error))
  {
    if st.userCode == "" then Step(st, Err(LoginRequired))
    else
      var p := PostUri(malformed, st, InsertReadDateTimeUri(cfg.tenantCode, st.userCode), PunchForm(clockType));
      if p.res.Err? then Failed(p) else Step(p.st, Ok(()))
  }

  /** Punchmark: move to the punch page, then submit; the first error ends it. */
  function Punchmark(cfg: Config, malformed: map<string, string>, st: State, clockType: ClockType): (r: Step<()>)
    ensures r.st.userCode == st.userCode
    ensures Chained(st) ==> Chained(r.st)
    ensures var s1 := MovePunchMarkPage(cfg, malformed, st);
      var s2 := InsertReadDateTime(cfg, malformed, s1.st, clockType);
      && (r.res.Ok? <==> s1.res.Ok? && s2.res.Ok?)
      && (s1.res.Err? ==> r == s1)
      && (s1.res.Ok? ==> r == s2)
  {
    var s1 := MovePunchMarkPage(cfg, malformed, st);
    if s1.res.Err? then s1 else InsertReadDateTime(cfg, malformed, s1.st, clockType)
  }

  // ---------------------------------------------------------------------
  // Properties

  /** The four clock types have distinct wire strings, sent verbatim. */
  lemma ClockTypeWire(clockType: ClockType)
    ensures ClockTypeClockIn.value == "ClockIn" && ClockTypeClockOut.value == "ClockOut"
    ensures ClockTypeGoOut.value == "GoOut" && ClockTypeReturned.value == "Returned"
    ensures |{ClockTypeClockIn, ClockTypeClockOut, ClockTypeGoOut, ClockTypeReturned}| == 4
    ensures PunchForm(clockType)["ClockType"] == clockType.value
  {
  }

  /** Without a user code a punch fails with "login required" and changes
      nothing: no request is sent. */
  lemma PunchRequiresLogin(cfg: Config, malformed: map<string, string>, st: State, clockType: ClockType)
    requires st.userCode == ""
    ensures Punchmark(cfg, malformed, st, clockType) == Step(st, Err(LoginRequired))
  {
  }

  /** movePunchMarkPage replaces the token only when the punch page loads
      and has a token input, and then with that input's value. */
  lemma MovePunchMarkPageWrites(cfg: Config, malformed: map<string, string>, st: State)
    requires st.userCode != ""
    ensures var r := MovePunchMarkPage(cfg, malformed, st);
      var g := Get(malformed, st, PunchmarkPageUri(cfg.tenantCode, st.userCode));
      && (r.res.Ok? <==> g.res.Ok? && g.res.value.token.Some?)
      && (r.res.Ok? ==> r.st.token == g.res.value.token.value)
      && (g.res.Ok? && g.res.value.token.None? ==> r.res == Err(NoToken))
      && (g.res.Err? ==> r.st == g.st && r.st.token == st.token && r.res == Err(g.res.error))
  {
  }

  /** A punch GETs the punch page and then POSTs the punch form, stopping
      after the GET when it fails; the POST carries the form of the clock
      type and, in its header, the token the punch page just supplied. */
  lemma PunchRequests(cfg: Config, malformed: map<string, string>, st: State, clockType: ClockType)
    ensures var r := Punchmark(cfg, malformed, st, clockType);
      var plan := [(GET, PunchmarkPageUri(cfg.tenantCode, st.userCode)), (POST, InsertReadDateTimeUri(cfg.tenantCode, st.userCode))];
      && Follows(st.link.sent, r.st.link.sent, plan)
      && (|r.st.link.sent| == |st.link.sent| + 2 ==>
            var s1 := MovePunchMarkPage(cfg, malformed, st);
            var post := r.st.link.sent[|st.link.sent| + 1];
            && s1.res.Ok?
            && post.form == PunchForm(clockType)
            && post.headers["__RequestVerificationToken"] == s1.st.token
            && Get(malformed, st, PunchmarkPageUri(cfg.tenantCode, st.userCode)).res.value.token == Some(s1.st.token))
  {
    var sent := st.link.sent;
    var plan := [(GET, PunchmarkPageUri(cfg.tenantCode, st.userCode)), (POST, InsertReadDateTimeUri(cfg.tenantCode, st.userCode))];
    var s1 := MovePunchMarkPage(cfg, malformed, st);
    assert [plan[0]] <= plan;
    if s1.res.Err? {
      FollowsPrefix(sent, s1.st.link.sent, [plan[0]], plan);
    } else {
      MovePunchMarkPageWrites(cfg, malformed, st);
      var s2 := InsertReadDateTime(cfg, malformed, s1.st, clockType);
      FollowsThen(sent, s1.st.link.sent, s2.st.link.sent, [plan[0]], [plan[1]]);
      assert [plan[0]] + [plan[1]] == plan;
    }
  }
}
