/**
 * The report-detail page's fetch procedure: the checks it makes before
 * asking the backend for a report, and how it turns the backend's answer
 * into the page's loading flag, error message and report.
 */
module ReportDetail {
  import opened Wrappers

  /** A parsed JSON body: its `detail` field, and the rest of the document. */
  datatype Document = Document(detail: Option<string>, content: string)

  /** What `response.json()` gives: the parsed document, or the message of the parse error it throws. */
  datatype Body = Json(doc: Document) | NotJson(message: string)

  /** What `fetch` gives: a response, or the message of the error it throws when the backend cannot be reached. */
  datatype Reply = Response(status: nat, statusText: string, body: Body) | NetworkFailure(message: string)

  /** What `user.getIdToken()` gives. */
  datatype TokenResult = Token(value: string) | TokenFailure

  /** A call of `navigate`. */
  datatype Redirect = Redirect(path: string, replace: bool)

  /** A GET of one report, with the bearer token it carries. */
  datatype Request = Request(reportId: string, token: string)

  /**
   * The page's state: the `loading`, `error` and `report` state values, and
   * the redirects and requests the page has issued so far.
   */
  datatype PageState = PageState(
    loading: bool,
    error: Option<string>,
    report: Option<Document>,
    redirects: seq<Redirect>,
    requests: seq<Request>)

  const LoginRedirect := Redirect("/login", true)

  const MissingIdMessage := "Report ID is missing from the URL."
  const SignedOutMessage := "You must be logged in to view this report."
  const TokenMessage := "Failed to get authentication token. Please log in again."
  // two literals, so that `CaughtIsNotNotFound` can read its first character
  const NotFoundMessage := "Report not found" + " or you do not have permission to view it."

  function UnauthorizedMessage(detail: string): string
  {
    "Unauthorized: " + detail + ". Your session may have expired. Please log in again."
  }

  function LoadFailedMessage(detail: string): string
  {
    "Failed to load report: " + detail
  }

  /** The message the catch block sets from the caught error's `message`. */
  function CaughtMessage(message: string): string
  {
    "Failed to load report: " + message + "."
  }

  /** JavaScript truthiness of an optional string: present and non-empty. */
  predicate Truthy(s: Option<string>)
  {
    s.Some? && s.value != ""
  }

  /** `response.ok`: a status in the 2xx range. */
  predicate Ok(status: nat)
  {
    200 <= status <= 299
  }

  function DigitChar(d: nat): char
    requires d < 10
  {
    "0123456789"[d]
  }

  /** A status code written in decimal, as a template literal writes it. */
  function Decimal(n: nat): (s: string)
    ensures |s| > 0
    ensures forall i :: 0 <= i < |s| ==> '0' <= s[i] <= '9'
  {
    if n < 10 then [DigitChar(n)] else Decimal(n / 10) + [DigitChar(n % 10)]
  }

  /** The number a string of decimal digits denotes: the reading a cited status is checked against. */
  function DecimalValue(s: string): nat
  {
    if s == [] then 0 else DecimalValue(s[..|s| - 1]) * 10 + DigitValue(s[|s| - 1])
  }

  function DigitValue(ch: char): nat
  {
    if '0' <= ch <= '9' then ch as int - '0' as int else 0
  }

  /** Reading back the decimal text of a status gives the status. */
  lemma {:induction false} DecimalRoundTrip(n: nat)
    ensures DecimalValue(Decimal(n)) == n
  {
    var s := Decimal(n);
    if n >= 10 {
      assert s[..|s| - 1] == Decimal(n / 10);
      DecimalRoundTrip(n / 10);
    }
  }

  /** `errorDetail` for a non-ok response: the body's `detail`, else the status; the status text when the body is not JSON. */
  function ErrorDetail(status: nat, statusText: string, body: Body): string
  {
    match body
    case Json(doc) => if Truthy(doc.detail) then doc.detail.value else "HTTP error! Status: " + Decimal(status)
    case NotJson(_) => "Error: " + Decimal(status) + " " + statusText
  }

  /** The message set for a non-ok status before the error is thrown. */
  function StatusMessage(status: nat, detail: string): string
  {
    if status == 401 then UnauthorizedMessage(detail)
    else if status == 404 then NotFoundMessage
    else LoadFailedMessage(detail)
  }

  /**
   * Without a `detail`, the error text of a JSON body cites the status, and
   * reading the digits after "HTTP error! Status: " back gives that status.
   */
  lemma StatusReadBack(status: nat, statusText: string, doc: Document)
    requires !Truthy(doc.detail)
    ensures var d := ErrorDetail(status, statusText, Json(doc));
            |d| > 20 && d[..20] == "HTTP error! Status: " && DecimalValue(d[20..]) == status
  {
    var d := ErrorDetail(status, statusText, Json(doc));
    assert d[20..] == Decimal(status);
    DecimalRoundTrip(status);
  }

  /** The generic caught message is never the not-found message. */
  lemma CaughtIsNotNotFound(message: string)
    ensures CaughtMessage(message) != NotFoundMessage
  {
    assert CaughtMessage(message)[0] == 'F' && NotFoundMessage[0] == 'R';
  }

  /** The checks before the request all pass, so the page sends it. */
  predicate SendsRequest(reportId: Option<string>, loadingAuth: bool, signedIn: bool, token: TokenResult)
  {
    Truthy(reportId) && !loadingAuth && signedIn && token.Token?
  }

  /** The page redirects to the login page: no user once auth has loaded, or a 401 from the backend. */
  predicate RedirectsToLogin(reportId: Option<string>, loadingAuth: bool, signedIn: bool, token: TokenResult, reply: Reply)
  {
    && Truthy(reportId) && !loadingAuth
    && (!signedIn || (token.Token? && reply.Response? && reply.status == 401))
  }

  /**
   * One run of `fetchReportDetails` from state `s`. `capturedError` is the
   * value of `error` the callback closed over when it was created; the
   * setters ahead of the catch block do not change it. A run either stops
   * early (no report id, auth still loading, no user, no token) or sends
   * one request and ends with `loading` false.
   */
  method FetchReportDetails(s: PageState, reportId: Option<string>, loadingAuth: bool, signedIn: bool,
                            token: TokenResult, reply: Reply, capturedError: Option<string>)
    returns (t: PageState)
    // the early returns
    ensures !Truthy(reportId) ==> t == s.(loading := false, error := Some(MissingIdMessage))
    ensures Truthy(reportId) && loadingAuth ==> t == s.(loading := true, error := None)
    ensures Truthy(reportId) && !loadingAuth && !signedIn ==>
              t == s.(loading := false, error := Some(SignedOutMessage), redirects := s.redirects + [LoginRedirect])
    ensures Truthy(reportId) && !loadingAuth && signedIn && token.TokenFailure? ==>
              t == s.(loading := false, error := Some(TokenMessage))
    // the request and its outcomes
    ensures SendsRequest(reportId, loadingAuth, signedIn, token) ==>
              t.requests == s.requests + [Request(reportId.value, token.value)]
    ensures !SendsRequest(reportId, loadingAuth, signedIn, token) ==> t.requests == s.requests
    ensures SendsRequest(reportId, loadingAuth, signedIn, token) && reply.Response? && Ok(reply.status) ==>
              match reply.body
              case Json(doc) => t == s.(loading := false, error := None, report := Some(doc), requests := t.requests)
              case NotJson(message) =>
                t == s.(loading := false, error := if Truthy(capturedError) then None else Some(CaughtMessage(message)),
                        requests := t.requests)
    ensures SendsRequest(reportId, loadingAuth, signedIn, token) && reply.Response? && !Ok(reply.status) ==>
              var detail := ErrorDetail(reply.status, reply.statusText, reply.body);
              t == s.(loading := false,
                      error := Some(if Truthy(capturedError) then StatusMessage(reply.status, detail) else CaughtMessage(detail)),
                      redirects := s.redirects + (if reply.status == 401 then [LoginRedirect] else []),
                      requests := t.requests)
    ensures SendsRequest(reportId, loadingAuth, signedIn, token) && reply.NetworkFailure? ==>
              t == s.(loading := false, error := if Truthy(capturedError) then None else Some(CaughtMessage(reply.message)),
                      requests := t.requests)
    // what every run guarantees
    ensures t.loading <==> Truthy(reportId) && loadingAuth
    ensures t.redirects == s.redirects + (if RedirectsToLogin(reportId, loadingAuth, signedIn, token, reply) then [LoginRedirect] else [])
    ensures t.report != s.report ==> SendsRequest(reportId, loadingAuth, signedIn, token) && t.error.None?
  {
    t := s.(loading := true);
    t := t.(error := None);

    if !Truthy(reportId) {
      t := t.(error := Some(MissingIdMessage));
      t := t.(loading := false);
      return;
    }

    if loadingAuth {
      return;
    }

    if !signedIn {
      t := t.(error := Some(SignedOutMessage));
      t := t.(loading := false);
      t := t.(redirects := t.redirects + [LoginRedirect]);
      return;
    }

    var idToken;
    match token {
      case TokenFailure =>
        t := t.(error := Some(TokenMessage));
        t := t.(loading := false);
        return;
      case Token(v) =>
        idToken := v;
    }

    t := RequestReport(t, reportId.value, idToken, reply, capturedError);
  }

  /**
   * The try/catch/finally part of `fetchReportDetails`, from the state the
   * checks left: send the request, then record the report or the error.
   */
  method RequestReport(s: PageState, reportId: string, idToken: string, reply: Reply, capturedError: Option<string>)
    returns (t: PageState)
    ensures t.requests == s.requests + [Request(reportId, idToken)]
    ensures reply.Response? && Ok(reply.status) ==>
              match reply.body
              case Json(doc) => t == s.(loading := false, report := Some(doc), requests := t.requests)
              case NotJson(message) =>
                t == s.(loading := false, error := if Truthy(capturedError) then s.error else Some(CaughtMessage(message)),
                        requests := t.requests)
    ensures reply.Response? && !Ok(reply.status) ==>
              var detail := ErrorDetail(reply.status, reply.statusText, reply.body);
              t == s.(loading := false,
                      error := Some(if Truthy(capturedError) then StatusMessage(reply.status, detail) else CaughtMessage(detail)),
                      redirects := s.redirects + (if reply.status == 401 then [LoginRedirect] else []),
                      requests := t.requests)
    ensures reply.NetworkFailure? ==>
              t == s.(loading := false, error := if Truthy(capturedError) then s.error else Some(CaughtMessage(reply.message)),
                      requests := t.requests)
  {
    t := s;
    // try: `thrown` is the message of the error the catch block receives, if any
    var thrown: Option<string> := None;
    t := t.(requests := t.requests + [Request(reportId, idToken)]);
    match reply {
      case NetworkFailure(message) =>
        thrown := Some(message);
      case Response(status, statusText, body) =>
        if !Ok(status) {
          var errorDetail := "HTTP error! Status: " + Decimal(status);
          match body {
            case Json(errorData) =>
              errorDetail := if Truthy(errorData.detail) then errorData.detail.value else errorDetail;
            case NotJson(_) =>
              errorDetail := "Error: " + Decimal(status) + " " + statusText;
          }
          assert errorDetail == ErrorDetail(status, statusText, body);
          if status == 401 {
            t := t.(error := Some(UnauthorizedMessage(errorDetail)));
            t := t.(redirects := t.redirects + [LoginRedirect]);
          } else if status == 404 {
            t := t.(error := Some(NotFoundMessage));
          } else {
            t := t.(error := Some(LoadFailedMessage(errorDetail)));
          }
          thrown := Some(errorDetail);
        } else {
          match body {
            case Json(data) =>
              t := t.(report := Some(data));
            case NotJson(message) =>
              thrown := Some(message);
          }
        }
    }

    // catch
    if thrown.Some? && !Truthy(capturedError) {
      t := t.(error := Some(CaughtMessage(thrown.value)));
    }

    // finally
    t := t.(loading := false);
  }

  /** The page as it is first rendered: loading, no error, no report. */
  const InitialState := PageState(true, None, None, [], [])

  /**
   * A first run that gets a 404: the callback still holds the initial
   * `error` of null, so the catch block replaces the not-found message with
   * the generic one, whatever the body says.
   */
  method FirstRunNotFound(statusText: string, body: Body) returns (t: PageState)
    ensures t.error == Some(CaughtMessage(ErrorDetail(404, statusText, body)))
    ensures t.error != Some(NotFoundMessage)
    ensures !t.loading && t.report == None && t.redirects == []
  {
    t := FetchReportDetails(InitialState, Some("r1"), false, true, Token("tok"),
                            Response(404, statusText, body), None);
    CaughtIsNotNotFound(ErrorDetail(404, statusText, body));
  }

  /** The same for a 404 with an empty JSON body: the message cites the status. */
  method FirstRunNotFoundEmptyBody() returns (t: PageState)
    ensures t.error == Some("Failed to load report: HTTP error! Status: 404.")
  {
    t := FirstRunNotFound("Not Found", Json(Document(None, "")));
    GenericNotFoundMessage();
  }

  lemma GenericNotFoundMessage()
    ensures CaughtMessage(ErrorDetail(404, "Not Found", Json(Document(None, ""))))
            == "Failed to load report: HTTP error! Status: 404."
  {
    Decimal404();
  }

  lemma Decimal404()
    ensures Decimal(404) == "404"
  {
    assert Decimal(4) == "4";
    assert Decimal(40) == "40";
  }

  /**
   * A later run, whose callback holds the earlier error message, keeps the
   * not-found message for any 404. The run clears `error` first, so it
   * starts from the page showing that earlier message.
   */
  method LaterRunNotFound(earlier: string, statusText: string, body: Body) returns (t: PageState)
    requires earlier != ""
    ensures t.error == Some(NotFoundMessage)
    ensures !t.loading && t.report == None && t.redirects == []
  {
    t := FetchReportDetails(InitialState.(error := Some(earlier)), Some("r1"), false, true, Token("tok"),
                            Response(404, statusText, body), Some(earlier));
  }

  /**
   * A first run that gets a 401 sends the user to the login page, replacing
   * the history entry, and ends with the generic message built from
   * `errorDetail`, whatever the status text and body.
   */
  method UnauthorizedRedirects(statusText: string, body: Body) returns (t: PageState)
    ensures t.redirects == [LoginRedirect]
    ensures t.error == Some(CaughtMessage(ErrorDetail(401, statusText, body)))
    ensures !t.loading && t.report == None
  {
    t := FetchReportDetails(InitialState, Some("r1"), false, true, Token("tok"),
                            Response(401, statusText, body), None);
  }

  /** The same for a 401 whose JSON body carries a `detail`: the message quotes it. */
  method UnauthorizedWithDetail(detail: string) returns (t: PageState)
    requires detail != ""
    ensures t.redirects == [Redirect("/login", true)]
    ensures t.error == Some(CaughtMessage(detail))
  {
    t := UnauthorizedRedirects("Unauthorized", Json(Document(Some(detail), "")));
  }
}
