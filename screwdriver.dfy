/** The client of the Screwdriver build-tracking API (screwdriver/screwdriver.go):
    request addresses and headers, the error texts, the checks `UpdateBuild`
    and `UpdateBuildStatus` make before sending, and the rule by which a
    response counts as success. The HTTP transport is replaced by the reply it
    produced; `url.Parse` by the error it reports, if any. */
module Screwdriver {
  import opened Values
  import opened Text

  /** An `SDAPI` value without its retrying HTTP client. */
  datatype Client = Client(baseURL: string, token: string)

  /** The error body the API returns. */
  datatype SDError = SDError(statusCode: int, reason: string, message: string)

  /** What the HTTP exchange produced: a transport error (after retries), a
      body that could not be read, or a status code together with whether
      the body decodes as an `SDError` (`errorBodyProblem` is the JSON error
      when it does not). */
  datatype HttpReply =
    | TransportFailure(err: string)
    | BodyUnreadable(err: string)
    | Response(statusCode: int, errorBodyProblem: Option<string>)

  /** The JSON bodies the client sends. */
  datatype Payload =
    | BuildUpdate(stats: Config, statusMessage: Option<string>)
    | BuildStatus(status: string, meta: Config)
    | BuildStatusMessage(status: string, meta: Config, message: string)

  datatype Request = Request(verb: string, url: string, authorization: string, contentType: string, body: Payload)

  /** One API operation: the request it sent, if any, and its error, if any. */
  datatype ApiCall = ApiCall(sent: Option<Request>, err: Option<string>)

  const BearerPrefix: string := "Bearer "
  const JsonContentType: string := "application/json"

  /** The build statuses `UpdateBuildStatus` accepts. */
  const ValidStatuses: set<string> := {"RUNNING", "SUCCESS", "FAILURE", "ABORTED"}

  /** `tokenHeader`: the Authorization header value. */
  function TokenHeader(token: string): (h: string)
    ensures HasPrefix(h, BearerPrefix) && h[|BearerPrefix|..] == token
  {
    BearerPrefix + token
  }

  /** The token a server reads back from an Authorization header. */
  function BearerToken(h: string): Option<string> {
    if HasPrefix(h, BearerPrefix) then Some(h[|BearerPrefix|..]) else None
  }

  lemma TokenHeaderRoundTrip(token: string)
    ensures BearerToken(TokenHeader(token)) == Some(token)
  {
  }

  /** `SDError.Error`: "<code> <reason>: <message>". */
  function ErrorText(e: SDError): string {
    IntToDecimal(e.statusCode) + " " + e.reason + ": " + e.message
  }

  /** The error text starts with the status code, which a reader recovers
      from everything before the first space. */
  lemma ErrorTextLeadsWithCode(e: SDError)
    ensures var r := ErrorText(e);
      IndexOf(r, " ").Some? && ParseInt(r[..IndexOf(r, " ").value]) == Some(e.statusCode)
  {
    var r := ErrorText(e);
    var d := IntToDecimal(e.statusCode);
    assert OccursAt(r, " ", |d|);
    forall j | 0 <= j < |d| ensures !OccursAt(r, " ", j) {
      assert r[j..j + 1] == [d[j]];
    }
    assert IndexOf(r, " ").value == |d|;
    assert r[..|d|] == d;
    IntDecimalRoundTrip(e.statusCode);
  }

  /** `makeURL`: "<base>/v4/<path>", or the error `url.Parse` reports. The
      address is the formatted text, not the canonical form `url.URL.String()`
      gives it (lower-case scheme, percent-escaped path); the two agree on
      canonical addresses. */
  function MakeURL(c: Client, path: string, parseError: Option<string>): (r: Result<string>)
    ensures parseError.Some? <==> r.Failure?
    ensures r.Success? ==> HasPrefix(r.value, c.baseURL + "/v4/") && r.value[|c.baseURL + "/v4/"|..] == path
  {
    if parseError.Some? then Failure(parseError.value) else Success(c.baseURL + "/v4/" + path)
  }

  /** `GetAPIURL`: the address of the API root. When `url.Parse` fails the
      source calls `String` on a nil URL, which panics. */
  function GetAPIURL(c: Client, parseError: Option<string>): (r: Outcome<string>)
    ensures r.Ok? <==> parseError.None?
    ensures r.Ok? ==> r.value == c.baseURL + "/v4/"
  {
    match MakeURL(c, "", parseError)
    case Success(u) => Ok(u)
    case Failure(_) => Panic
  }

  lemma GetAPIURLExample()
    ensures GetAPIURL(Client("http://fakeurl", "faketoken"), None) == Ok("http://fakeurl/v4/")
  {
    assert "http://fakeurl" + "/v4/" + "" == "http://fakeurl/v4/";
  }

  /** Go's integer division, which truncates toward zero. */
  function GoQuotient(a: int, b: int): int
    requires b > 0
  {
    if a >= 0 then a / b else -((-a) / b)
  }

  /** The success rule of `write`: `StatusCode / 100 == 2`. */
  predicate IsSuccessCode(code: int) {
    GoQuotient(code, 100) == 2
  }

  lemma SuccessCodesAre2xx(code: int)
    ensures IsSuccessCode(code) <==> 200 <= code <= 299
  {
  }

  /** `write`: the error of one request, if any. */
  function Write(url: string, verb: string, reply: HttpReply): (err: Option<string>)
    ensures err.None? <==> reply.Response? && IsSuccessCode(reply.statusCode)
  {
    match reply
    case TransportFailure(e) =>
      Some("WARNING: received error from " + verb + "(" + url + "): " + e + " ")
    case BodyUnreadable(e) =>
      Some("reading response Body from Screwdriver: " + e)
    case Response(code, problem) =>
      if IsSuccessCode(code) then None
      else if problem.Some? then Some("unparseable error response from Screwdriver: " + problem.value)
      else Some("WARNING: received response " + IntToDecimal(code) + " from " + url + " ")
  }

  function Put(c: Client, url: string, body: Payload): Request {
    Request("PUT", url, TokenHeader(c.token), JsonContentType, body)
  }

  function BuildPath(buildID: int): string {
    "builds/" + IntToDecimal(buildID)
  }

  function WithPrefix(prefix: string, err: Option<string>): Option<string> {
    if err.Some? then Some(prefix + err.value) else None
  }

  /** `UpdateBuild`: checks the address, then the `hostname` key, then the
      `imagePullStartTime` key, and only then PUTs the stats (with the status
      message when it is not empty) to builds/<id>. */
  function UpdateBuild(c: Client, stats: Config, buildID: int, statusMessage: string,
                       parseError: Option<string>, reply: HttpReply): (r: ApiCall)
    ensures r.sent.Some? <==> parseError.None? && "hostname" in stats && "imagePullStartTime" in stats
    ensures parseError.Some? ==> r.err == Some("creating url: " + parseError.value)
    ensures parseError.None? && "hostname" !in stats ==>
      r.err == Some("hostname value is empty or invalid: <nil>")
    ensures parseError.None? && "hostname" in stats && "imagePullStartTime" !in stats ==>
      r.err == Some("imagePullStartTime value is empty or invalid: <nil>")
    ensures r.sent.Some? ==>
      var q := r.sent.value;
      && q.verb == "PUT" && q.url == c.baseURL + "/v4/builds/" + IntToDecimal(buildID)
      && q.authorization == TokenHeader(c.token) && q.contentType == JsonContentType
      && q.body == BuildUpdate(stats, if statusMessage == "" then None else Some(statusMessage))
    ensures r.sent.Some? ==> (r.err.None? <==> reply.Response? && 200 <= reply.statusCode <= 299)
  {
    match MakeURL(c, BuildPath(buildID), parseError)
    case Failure(e) => ApiCall(None, Some("creating url: " + e))
    case Success(u) =>
      if "hostname" !in stats then ApiCall(None, Some("hostname value is empty or invalid: <nil>"))
      else if "imagePullStartTime" !in stats then ApiCall(None, Some("imagePullStartTime value is empty or invalid: <nil>"))
      else
        var body := BuildUpdate(stats, if statusMessage != "" then Some(statusMessage) else None);
        SuccessCodesAre2xx(if reply.Response? then reply.statusCode else 0);
        ApiCall(Some(Put(c, u, body)), WithPrefix("Posting to Build Stats: ", Write(u, "PUT", reply)))
  }

  /** `UpdateBuildStatus`: rejects an unknown status before forming any
      address; sends the payload with a `statusMessage` field exactly when
      the message is not empty. */
  function UpdateBuildStatus(c: Client, status: string, meta: Config, buildID: int, statusMessage: string,
                             parseError: Option<string>, reply: HttpReply): (r: ApiCall)
    ensures status !in ValidStatuses ==> r == ApiCall(None, Some("Invalid build status: " + status))
    ensures r.sent.Some? <==> status in ValidStatuses && parseError.None?
    ensures status in ValidStatuses && parseError.Some? ==> r.err == Some("creating url: " + parseError.value)
    ensures r.sent.Some? ==>
      && r.sent.value.url == c.baseURL + "/v4/builds/" + IntToDecimal(buildID)
      && r.sent.value.authorization == TokenHeader(c.token)
      && (r.sent.value.body.BuildStatusMessage? <==> statusMessage != "")
      && !r.sent.value.body.BuildUpdate?
      && r.sent.value.body.status == status && r.sent.value.body.meta == meta
    ensures r.sent.Some? ==> (r.err.None? <==> reply.Response? && 200 <= reply.statusCode <= 299)
  {
    if status !in ValidStatuses then ApiCall(None, Some("Invalid build status: " + status))
    else
      match MakeURL(c, BuildPath(buildID), parseError)
      case Failure(e) => ApiCall(None, Some("creating url: " + e))
      case Success(u) =>
        var body := if statusMessage != "" then BuildStatusMessage(status, meta, statusMessage)
                    else BuildStatus(status, meta);
        SuccessCodesAre2xx(if reply.Response? then reply.statusCode else 0);
        ApiCall(Some(Put(c, u, body)), WithPrefix("Posting to Build Status: ", Write(u, "PUT", reply)))
  }

  /** The first two cases of the repository's UpdateBuild test: a full
      stats map with a 200 reply succeeds, and an empty one is refused before
      anything is sent. */
  lemma UpdateBuildAcceptsAndRefuses(parsed: Config)
    requires "hostname" in parsed && "imagePullStartTime" in parsed
    ensures UpdateBuild(Client("http://fakeurl", "faketoken"), parsed, 15, "", None, Response(200, None)).err == None
    ensures UpdateBuild(Client("http://fakeurl", "faketoken"), map[], 15, "", None, Response(200, None))
      == ApiCall(None, Some("hostname value is empty or invalid: <nil>"))
  {
  }

  lemma DecimalsOfTestCodes()
    ensures IntToDecimal(15) == "15" && IntToDecimal(400) == "400"
  {
    assert NatToDecimal(1) == "1";
    assert NatToDecimal(4) == "4";
    assert NatToDecimal(40) == "40";
  }

  /** Once both keys are present and the address parses, the error of
      `UpdateBuild` is the reply's error under the "Posting to Build Stats"
      prefix, for the address builds/<id>. */
  lemma UpdateBuildErrorOfReply(c: Client, stats: Config, buildID: int, statusMessage: string, reply: HttpReply)
    requires "hostname" in stats && "imagePullStartTime" in stats
    ensures UpdateBuild(c, stats, buildID, statusMessage, None, reply).err
      == WithPrefix("Posting to Build Stats: ", Write(c.baseURL + "/v4/builds/" + IntToDecimal(buildID), "PUT", reply))
  {
    assert c.baseURL + "/v4/" + BuildPath(buildID) == c.baseURL + "/v4/builds/" + IntToDecimal(buildID);
  }

  /** The third case of that test: a 400 reply is reported together with
      the address the stats were sent to. */
  lemma UpdateBuildReportsRejection(parsed: Config)
    requires "hostname" in parsed && "imagePullStartTime" in parsed
    ensures UpdateBuild(Client("http://fakeurl", "faketoken"), parsed, 15, "", None, Response(400, None)).err
      == Some("Posting to Build Stats: " + "WARNING: received response " + "400" + " from "
              + "http://fakeurl/v4/builds/15" + " ")
  {
    DecimalsOfTestCodes();
    UpdateBuildErrorOfReply(Client("http://fakeurl", "faketoken"), parsed, 15, "", Response(400, None));
    var u := "http://fakeurl/v4/builds/15";
    assert "http://fakeurl" + "/v4/builds/" + "15" == u;
    var w := "WARNING: received response " + "400" + " from " + u + " ";
    assert Write(u, "PUT", Response(400, None)) == Some(w);
    assert "Posting to Build Stats: " + w
      == "Posting to Build Stats: " + "WARNING: received response " + "400" + " from " + u + " ";
  }
}
