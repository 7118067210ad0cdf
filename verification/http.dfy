/** What the client sees of HTTP: the requests it issues, the replies the
    portal gives, and the transport (net/http's client with its cookie jar)
    as an oracle that answers each request with the next scripted reply. */
module Http {
  import opened Basics

  const UserAgent := "Bugyo-Client-Go/1.0.0"
  const BaseUri := "https://id.obc.jp"

  /** What the client reads from an HTML page: the value of the input named
      __RequestVerificationToken and the href of the element #ApplicationRoot,
      each None when the page has no such element. */
  datatype Document = Document(token: Option<string>, appRoot: Option<string>)

  datatype Body = Html(doc: Document) | Unreadable(cause: string)

  datatype Reply =
    | ConnectionFailed(cause: string)
    | Response(code: int, status: string, body: Body)

  datatype Method = GET | POST

  /** A request as it leaves the client; `form` is the url-encoded body. */
  datatype Request = Request(verb: Method, url: string, headers: map<string, string>, form: map<string, string>)

  /** The portal side of a session: the replies still to come and every request sent so far. */
  datatype Link = Link(replies: seq<Reply>, sent: seq<Request>)

  const NoReply := "no reply"

  /** The reply the next request gets: the head of the script, or a
      connection failure once the script is exhausted. */
  function NextReply(l: Link): Reply
  {
    if l.replies == [] then ConnectionFailed(NoReply) else l.replies[0]
  }

  /** The script left after one round trip. */
  function Remaining(l: Link): seq<Reply>
  {
    if l.replies == [] then [] else l.replies[1..]
  }

  /** One round trip: `req` is logged and answered by the next reply. */
  function Send(l: Link, req: Request): (r: (Link, Reply))
    ensures r.0.sent == l.sent + [req]
    ensures |r.0.replies| == if l.replies == [] then 0 else |l.replies| - 1
  {
    if l.replies == [] then (Link([], l.sent + [req]), ConnectionFailed(NoReply))
    else (Link(l.replies[1..], l.sent + [req]), l.replies[0])
  }

  /** How get and post turn a reply into their result: only a readable
      200 reply yields a document. */
  function Outcome(reply: Reply): (r: Result<Document>)
    ensures r.Ok? <==> reply.Response? && reply.code == 200 && reply.body.Html?
    ensures r.Ok? ==> r.value == reply.body.doc
    ensures (r.Err? && r.error.StatusError?) <==> (reply.Response? && reply.code != 200)
    ensures reply.Response? && reply.code != 200 ==> r.error.status == reply.status
    ensures reply.ConnectionFailed? ==> r == Err(NetworkError(reply.cause))
    ensures reply.Response? && reply.code == 200 && reply.body.Unreadable? ==> r == Err(BodyError(reply.body.cause))
  {
    match reply
    case ConnectionFailed(cause) => Err(NetworkError(cause))
    case Response(code, status, body) =>
      if code != 200 then Err(StatusError(status))
      else
        match body
        case Html(doc) => Ok(doc)
        case Unreadable(cause) => Err(BodyError(cause))
  }

  /** The http.Client a client owns. `malformed` lists the URIs that
      http.NewRequest refuses, with the parser's message. */
  class Transport {
    const malformed: map<string, string>
    var replies: seq<Reply>
    ghost var sent: seq<Request>

    ghost function View(): Link
      reads this
    {
      Link(replies, sent)
    }

    constructor (replies: seq<Reply>, malformed: map<string, string>)
      ensures this.replies == replies && this.malformed == malformed && sent == []
    {
      this.replies := replies;
      this.malformed := malformed;
      sent := [];
    }

    /** http.Client.Do */
    method Do(req: Request) returns (reply: Reply)
      modifies this
      ensures (View(), reply) == Send(old(View()), req)
    {
      sent := sent + [req];
      if replies == [] {
        reply := ConnectionFailed(NoReply);
      } else {
        reply := replies[0];
        replies := replies[1..];
      }
    }
  }
}
