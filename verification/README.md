# bugyo-client-go: the authenticated session driver, in Dafny

This project models the part of bugyo-client-go that drives a session with
the Bugyo Cloud portal: building a client from credentials, the four-step
HTML login (`getToken`, `checkAuthentication`, `authenticate`,
`getUserCode`), the `IsLoggedIn` probe and the time-clock punch
(`movePunchMarkPage`, `insertReadDateTime`). It also models the older client
in `client/client.go`.

How the model is built:

- **The client record.** `Client.BugyoClient` has the same fields as the Go
  `bugyoClient`: `token`, `userCode`, `lastReq`, `config` and `debug`.
  Each Go method that talks to the portal is a Dafny method that updates
  those fields in place. `refererForURL` is the function
  `Session.RefererFor`. `setLastReq` has no member of its own: its effect is
  the assignment to `lastReq` inside `Client.BugyoClient.Get` and
  `Client.BugyoClient.PostUri`.
- **Each method has a specification function.** Every method of
  `Client.BugyoClient` is proved to leave the state that a pure function of
  the old state computes.
  `Session.Get` and `Session.PostUri` specify `get` and `post`.
  `LoginFlow.GetToken` … `LoginFlow.Login` and `LoginFlow.IsLoggedIn` specify
  the login. `PunchFlow.MovePunchMarkPage` … `PunchFlow.Punchmark` specify
  the punch. The lemmas about the session are proved about these functions.
- **The portal is an oracle.** `Http.Transport` holds a scripted queue of
  replies and a ghost log of every request sent. A request carries its
  method, URL, headers and form.
  - A reply is one of three things: a connection failure, a status other
    than 200, or a 200 page.
  - A 200 page is reduced to what the client reads from it: the value of the
    `__RequestVerificationToken` input and the `href` of the
    `#ApplicationRoot` anchor, each optional.
  - An exhausted queue answers with a connection failure.
  - `http.NewRequest` rejects some URIs. These are a map from the rejected
    URI to the parser's error text.
- **Referer chaining is a class invariant.** `Session.Chained` holds of the
  whole log. The first request carries no `Referer`, and every later one
  carries the URL of the request before it. `lastReq` is the URL of the last
  request sent.
- **Strings and data.** `strings.Split` and `strings.Join` on a
  one-character separator are in `Strings`, with their round trip. The Go
  error values are the `Basics.Error` datatype, and `Basics.Message` gives
  their exact texts.

Where the code may surprise a reader, the model follows the code:

- An `#ApplicationRoot` href with a trailing slash, such as `/acme/u42/`,
  splits into four pieces. The code then leaves the user code empty, and the
  login still succeeds (login.go:92-95), even though the href looks as if it
  names the user `u42`. `Scenarios.LoginWithEmptyUserCode` shows the code's
  behaviour.
- `getUserCode`, and so `IsLoggedIn`, replaces the token only when both the
  anchor and the token input are present (login.go:90-103).
- The token changes only when a page supplies one (`getToken`,
  `getUserCode`, `movePunchMarkPage`). `get` and `post` never change it.

Where the source does not settle a question:

- `urlPunchmarkPage` and `urlInsertReadDateTime` are defined in none of
  client.go, login.go or punchmark.go. `PunchFlow.PunchmarkPageUri` and
  `PunchFlow.InsertReadDateTimeUri` model them with the URLs that the
  comments at punchmark.go:36 and punchmark.go:53 give.
- punchmark.go:65 calls `post` with a single URI, but `post` takes a domain
  and an endpoint (client.go:115).
  - `Session.PostUri` is `post` addressed by a whole URI.
  - `Session.Post(domain, endpoint)` is `PostUri(domain + "/" + endpoint)`.
- login.go declares a different package name from its neighbours. The model
  treats the three files as one package.

## Model

| member | source | states |
|---|---|---|
| Credentials.Validate | client.go:63-74 | No error exactly when a config is given and TenantCode, OBCiD and Password are all non-empty. Otherwise the error is InvalidArgument for a missing argument, and every argument checked before it is present. |
| Credentials.ValidateMessages | client.go:63-74 | The four error texts are exactly "invalid argument: config required", "… TenantCode required", "… OBCiD required" and "… Password required". |
| Session.Apply | client.go:44-49 | The WithDebug option turns debug on. |
| Session.ApplyOptions | client.go:52-55 | Applying the options in order leaves debug on exactly when some option is WithDebug. |
| Client.NewClient | client.go:51-76 | The error is the credential check's verdict, and a client comes back exactly when there is no error. The client has fresh transport, empty token and userCode, no lastReq, the given config, debug iff WithDebug was passed, and satisfies the class invariant. |
| Client.BugyoClient.constructor | client.go:75 | A new client, given a transport that has sent nothing, has empty token and userCode, no lastReq, and satisfies the class invariant. |
| Http.Transport.constructor | client.go:56-62 | A new transport has the given reply script and has sent nothing. |
| Http.Send | client.go:134 | Sending appends the request to the log and consumes one reply, if there is one. |
| Http.Transport.Do | client.go:95 | Do sends the request and returns the next scripted reply. |
| Http.Outcome | client.go:95-112 | A reply gives a document exactly when its status is 200 and its body reads as HTML. Any other status gives an error carrying the status text. A 200 reply whose body cannot be read gives a body error with its cause (client.go:108-111). A connection failure gives a network error. |
| Basics.Message | client.go:63-74 | The four invalid-argument errors read "invalid argument: config required", "… TenantCode required", "… OBCiD required" and "… Password required". A parse, network or body error reads as its cause, and a status error as the status text. NoToken, NoUserCode and LoginRequired read "no token", "no user code" and "login required". |
| Session.RefererFor | client.go:156-161 | No previous request gives the empty Referer; otherwise the Referer is the previous URL. |
| Session.GetRequest | client.go:79-87 | A GET to the URI with no form. It carries the User-Agent, and a Referer exactly when there was a previous URL, equal to that URL, and no other header. |
| Session.PostRequest | client.go:116-127 | A POST carrying the form and the User-Agent, Content-Type, __RequestVerificationToken (the current token) and X-Requested-With headers. It carries the previous URL as Referer when there is one, and no other header. |
| Session.Issue | client.go:79-107 | A URI that does not parse gives its parse error and changes nothing. Otherwise the request is sent, one scripted reply is consumed, and lastReq becomes the URL on every path. The result is the Outcome of the reply the request got (a connection failure once the script is exhausted): the document of a readable 200 page, the status text of any other status, or the network error. Token and userCode never change, and Referer chaining is kept. |
| Session.ChainedExtend | client.go:156-164 | Appending a request whose Referer is refererForURL(lastReq), then setting lastReq to its URL, keeps Referer chaining over the whole log. |
| Session.Get | client.go:78-113 | get sends exactly GetRequest(uri, lastReq), sets lastReq to uri, returns the Outcome of the reply and keeps token, userCode and Referer chaining; an unparsable URI changes nothing. |
| Session.PostUri | client.go:115-154 | post sends exactly PostRequest(uri, token, lastReq, form), sets lastReq to uri, returns the Outcome of the reply and keeps token, userCode and Referer chaining; an unparsable URI changes nothing. |
| Session.Post | client.go:115-128 | post(domain, endpoint) keeps token, userCode and Referer chaining. An unparsable domain + "/" + endpoint gives its parse error and changes nothing. Otherwise it sends exactly PostRequest(domain + "/" + endpoint, token, lastReq, form) sets lastReq to that URL and returns the Outcome of the reply. |
| Session.StatusErrors | client.go:104-107 | get and post fail with a status error, carrying the status text, exactly when the reply has a status other than 200. |
| Client.BugyoClient.Get | client.go:78-113 | The method leaves the client and transport in the state Session.Get specifies, returns its result, and keeps the invariant. |
| Client.BugyoClient.PostUri | client.go:115-154 | The method leaves the state Session.PostUri specifies and returns its result. |
| Client.BugyoClient.Post | client.go:115-128 | The method leaves the state Session.Post specifies for domain + "/" + endpoint. |
| LoginFlow.TenantUri | login.go:36 | The login page is https://id.obc.jp followed by '/' and the tenant code; the login posts go to this domain (login.go:50, login.go:66). |
| LoginFlow.RedirectUri | login.go:83-84 | The redirect page is the tenant page followed by /omredirect/redirect/. |
| LoginFlow.GetToken | login.go:34-46 | getToken leaves userCode alone, keeps Referer chaining, and sends at most a GET of the login page. When it succeeds it sends exactly that one request. When it fails the token is unchanged. |
| LoginFlow.GetTokenWrites | login.go:37-45 | getToken succeeds exactly when the page loads and has the token input, and then the token is that input's value. A page without it gives "no token". A failed GET gives the GET's error. |
| LoginFlow.CheckAuthenticationForm | login.go:53-55 | The form has exactly the fields OBCiD, set to the configured OBCiD, and isBugyoCloud, set to "false". |
| LoginFlow.CheckAuthentication | login.go:48-62 | The step is the POST of CheckAuthenticationForm to tenant/login/CheckAuthenticationMethod: it leaves the POST's state, and its result is Ok whenever the POST succeeds, whatever the page says, and the POST's error otherwise. Token, userCode and Referer chaining are kept. |
| LoginFlow.AuthenticateForm | login.go:69-73 | The form has exactly the fields OBCiD, Password, __RequestVerificationToken and X-Requested-With, set to the configured OBCiD and Password, the current token and "XMLHttpRequest". |
| LoginFlow.Authenticate | login.go:64-80 | The step is the POST of AuthenticateForm to tenant/login/login/?Length=5: it leaves the POST's state, and its result is Ok whenever the POST succeeds and the POST's error otherwise. Token and userCode are kept. |
| LoginFlow.AuthenticateEchoesToken | login.go:69-75 | The authentication POST carries the current token both in its body and in its header. |
| LoginFlow.GetUserCode | login.go:82-105 | getUserCode keeps Referer chaining and sends at most the GET of the redirect page. When it succeeds it sends exactly that request. |
| LoginFlow.GetUserCodeWrites | login.go:85-104 | A failed GET changes neither userCode nor token. Otherwise userCode becomes UserCodeOf(href), or "" when there is no anchor. A missing anchor gives "no user code" and keeps the token. An anchor without a token input gives "no token". With both present the result is Ok and the token is the input's value. |
| LoginFlow.UserCodeOf | login.go:91-95 | The user code never contains '/', and is empty unless the href has exactly two '/'. |
| LoginFlow.UserCodeOfPath | login.go:92-95 | The href a/b/u, with no '/' inside a, b or u, yields u. |
| LoginFlow.UserCodeOfTrailingSlash | login.go:92-95 | The href a/b/u/ yields "", because it splits into four pieces. |
| LoginFlow.UserCodeOfShape | login.go:92-95 | Only a href with exactly two '/' yields a non-empty code. That code has no '/' and is the text after the second '/'. |
| LoginFlow.UserCodeExamples | login.go:91-95 | "/t/u" yields "u", while "/t/u/" and "/t" yield "". |
| Strings.Split | login.go:92 | strings.Split gives one more piece than there are separators, and no piece contains the separator. |
| Strings.JoinSplit | login.go:92 | Joining the pieces of a split gives back the original string. |
| Strings.SplitJoin | login.go:92 | Splitting the join of separator-free pieces gives back the pieces. |
| LoginFlow.Login | login.go:10-32 | Login is Ok exactly when getToken, checkAuthentication, authenticate and getUserCode are all Ok, each run on the state the previous one left. Otherwise it ends with the state and error of the first step that failed. Referer chaining is kept. |
| LoginFlow.LoginFollowsPlan | login.go:10-31 | A login sends a prefix of the plan, in order: GET of the tenant page, POST CheckAuthenticationMethod, POST login, GET of the redirect page. |
| LoginFlow.LoginSendsFour | login.go:10-31 | A successful login sent exactly four requests. |
| LoginFlow.LoginStopsAtFirstError | login.go:12-29 | A second request is sent only after getToken succeeded. A third is sent only after checkAuthentication also succeeded. A fourth is sent only after authenticate also succeeded. |
| LoginFlow.LoginNoToken | login.go:12-45 | A login page without a token ends the login with "no token" after one request. Token and userCode are unchanged. |
| LoginFlow.IsLoggedIn | login.go:107-112 | The probe leaves exactly the state getUserCode leaves: userCode reset and set from the href, and the token replaced when both the anchor and the token input are present (LoginFlow.GetUserCodeWrites). Referer chaining is kept. |
| LoginFlow.IsLoggedInIff | login.go:107-112 | IsLoggedIn is true exactly when the redirect page loads and has a token input and an anchor whose href yields a non-empty user code. |
| Client.BugyoClient.GetToken | login.go:34-46 | The method makes the change LoginFlow.GetToken specifies. |
| Client.BugyoClient.CheckAuthentication | login.go:48-62 | The method makes the change LoginFlow.CheckAuthentication specifies. |
| Client.BugyoClient.Authenticate | login.go:64-80 | The method makes the change LoginFlow.Authenticate specifies. |
| Client.BugyoClient.GetUserCode | login.go:82-105 | The method makes the change LoginFlow.GetUserCode specifies. |
| Client.BugyoClient.Login | login.go:10-32 | The method makes the change LoginFlow.Login specifies and keeps the invariant. |
| Client.BugyoClient.IsLoggedIn | login.go:107-112 | The method answers and changes state as LoginFlow.IsLoggedIn specifies. |
| PunchFlow.ClockTypeWire | punchmark.go:11-16 | The four clock types are distinct, with wire strings ClockIn, ClockOut, GoOut and Returned, sent verbatim as the ClockType field. |
| PunchFlow.PunchmarkPageUri | punchmark.go:36-37 | The punch page URL is https://hromssp.obc.jp/<tenant>/<userCode>/ followed by timeclock/punchmark/. |
| PunchFlow.InsertReadDateTimeUri | punchmark.go:53-54 | The punch URL is https://hromssp.obc.jp/<tenant>/<userCode>/ followed by TimeClock/InsertReadDateTime/. |
| PunchFlow.PunchForm | punchmark.go:56-63 | The punch form has exactly the seven fields the code sets: ClockType is the clock type's wire string, LaborSystemID is "0", LaborSystemCode and LaborSystemName are empty, the position is the fixed 35.6812, 139.7671, and PositionAccuracy is "0". |
| PunchFlow.MovePunchMarkPage | punchmark.go:32-47 | An empty userCode gives "login required" and changes nothing. Otherwise the step sends at most the GET of the punch page and keeps userCode and Referer chaining. When it fails the token is unchanged. |
| PunchFlow.MovePunchMarkPageWrites | punchmark.go:38-46 | movePunchMarkPage succeeds exactly when the punch page loads with a token input, and then the token is that input's value. A page without it gives "no token". A failed GET gives the GET's error and state, with the token unchanged. |
| PunchFlow.InsertReadDateTime | punchmark.go:49-71 | An empty userCode gives "login required" and changes nothing. Otherwise the step is the POST of PunchForm(clockType) to the punch URL with the current token: it leaves the POST's state, and its result is Ok whenever the POST succeeds and the POST's error otherwise. |
| PunchFlow.Punchmark | punchmark.go:18-30 | A punch is Ok exactly when movePunchMarkPage and then insertReadDateTime are Ok. If the page step fails the punch ends with its state and error; otherwise it ends as insertReadDateTime does. userCode and Referer chaining are kept. |
| PunchFlow.PunchRequiresLogin | punchmark.go:18-35 | Without a user code a punch fails with "login required", sends nothing and changes nothing. |
| PunchFlow.PunchRequests | punchmark.go:18-65 | A punch sends a prefix of [GET punch page, POST InsertReadDateTime], so there is no POST when the page step fails. When both are sent, the POST's form is the fixed punch form and its header token is the token the punch page supplied. |
| Client.BugyoClient.MovePunchMarkPage | punchmark.go:32-47 | The method makes the change PunchFlow.MovePunchMarkPage specifies. |
| Client.BugyoClient.InsertReadDateTime | punchmark.go:49-71 | The method makes the change PunchFlow.InsertReadDateTime specifies. |
| Client.BugyoClient.Punchmark | punchmark.go:18-30 | The method makes the change PunchFlow.Punchmark specifies. |
| Scenarios.TokenPage | login.go:34-46 | Against a login page with token t, getToken succeeds with token t after one request. |
| Scenarios.PostsAccepted | login.go:48-80 | When the portal accepts the post, checkAuthentication and authenticate each succeed after one request and keep the token. |
| Scenarios.UserCodePage | login.go:82-105 | Against a redirect page with anchor href and token t, getUserCode succeeds. userCode becomes UserCodeOf(href) and the token becomes t. |
| Scenarios.LoginScenario | login.go:10-31 | Against a portal that accepts every step, Login succeeds after four requests. userCode is the code of the final page's href, and the token is that page's token. |
| Scenarios.LoginWithEmptyUserCode | login.go:89-104 | A final page whose href is a/b/u/, with no '/' inside a, b or u, still gives a successful login, with an empty userCode. |
| Scenarios.PunchScenario | punchmark.go:18-65 | Once logged in, a punch whose page supplies t succeeds after two requests. Its POST carries the clock type's form, t in its header, and the punch page as Referer. |
| LegacyClient.GetOutcome | client/client.go:61-91 | The older get sends a GET carrying only the User-Agent header, so no Referer. An unparsable URI changes nothing. Otherwise one reply is consumed and the result is the Outcome of the reply the GET got: the document of a readable 200 page, the status text, the body error or the network error. |
| LegacyClient.PostOutcome | client/client.go:93-126 | The older post sends exactly PostRequest(domain + "/" + endpoint, token, no previous URL, form): the form, the given token in the __RequestVerificationToken header, and no Referer. An unparsable target changes nothing. Otherwise one reply is consumed and the result is the Outcome of the reply the POST got. |
| LegacyClient.LegacyStatusErrors | client/client.go:82-85 | The older get and post fail with a status error exactly when the status is not 200, and the error carries the reply's status text. |
| LegacyClient.BugyoClient.constructor | client/client.go:57 | A new older client has empty token and userCode and the given debug flag. |
| LegacyClient.BugyoClient.Get | client/client.go:61-91 | The method makes the change GetOutcome specifies to the transport, returns its result, and changes no field of the client. |
| LegacyClient.BugyoClient.Post | client/client.go:93-126 | The method makes the change PostOutcome specifies, with the client's token, returns its result, and changes no field of the client. |
| LegacyClient.NewClient | client/client.go:37-58 | The error is the credential check's verdict, checking in the order config, TenantCode, OBCiD, Password. A client comes back exactly when there is no error, with empty token and userCode and debug equal to the argument. |

## Left out

- Real HTTP (`http.Client.Do`), redirects and timeouts. The portal is a
  scripted reply queue.
- The cookie jar. Cookies never reach the model.
- `cookiejar.New` failing: with nil options it cannot fail.
- The request and response dumps and the logging behind the `debug`
  flag. `debug` is kept as a flag only.
- The `status code error` log line that get and post write on any status
  other than 200, whatever the flag (client.go:105, client.go:144,
  client/client.go:83, client/client.go:118). Logging is output only.
- goquery parsing. A page is reduced to the two optional values the client
  reads from it, and a body goquery cannot read is one error value.
- `url.Values.Encode`. A form is a map from field to value, so a field set
  twice keeps its last value, as `Set` does.
- How `http.Header` canonicalises header names. The model keeps the header
  names the code writes.
- `lastReq` is kept as the requested URI string, not as a parsed `url.URL`,
  so the URL's re-serialisation by `String()` is not modelled.
- Calling a nil option function in `NewClient`, which panics in Go. The
  option datatype has no nil value.
- In Go the caller and the client share one config by reference. The
  model copies the config into the client.
- config/config.go, bugyocli/cli.go, cmd/main.go, example/goout/main.go and
  magefile.go, which are configuration I/O, wiring and the build script.
