/**
  The Express error handler of the exporter (src/ErrorHandler.ts): given the
  error a request failed with, it fixes the response status, may add a
  `WWW-Authenticate` challenge, answers with a JSON `server_error` body and logs
  the failure; without an error it passes the request on.

  JavaScript truthiness is made explicit: an absent error, an absent or falsy
  `err.status`, and absent or empty realm fields are modelled as such, and
  `Number(err.status)` is given as the integer it converts to, or none when it
  is not a number. The logger and the response object are replaced by the
  values the handler hands them.

  Response headers are keyed by their lower-case name, as Node's `setHeader`
  keeps them: `Content-Type` and `content-type` name the same header, and
  setting one replaces the other.
*/
module ErrorHandler {
  import opened Wrappers

  const InternalServerError: int := 500
  const Unauthorized: int := 401

  /** `err.status` as the handler sees it: falsy, or truthy and converting to
      an integer or to no number at all (NaN). */
  datatype StatusField = Falsy | Truthy(asNumber: Option<int>)

  /** `err.realm`: each field may be missing. */
  datatype Realm = Realm(kind: Option<string>, env: Option<string>, charset: Option<string>)

  /** The error a request failed with. */
  datatype RequestError = RequestError(status: StatusField, realm: Option<Realm>, message: string)

  /** The request, of which only the method (`verb`) and the URL are logged. */
  datatype Request = Request(verb: string, url: string)

  /** The body the handler answers with. */
  datatype ErrorResponseBody = ErrorResponseBody(error: string, errorDescription: Option<string>, errorUri: Option<string>)

  /** The response as the handler leaves it. */
  datatype Response = Response(statusCode: int, headers: map<string, string>, body: Option<ErrorResponseBody>)

  datatype Severity = Error | Info

  /** One log call: its severity, its message, and the context it carries: the
      status, the error's own message and the request. */
  datatype LogLine = LogLine(severity: Severity, message: string, httpStatusCode: int, errorMessage: string, request: Request)

  /** What the handler does: pass the request on untouched, or answer it and log. */
  datatype Outcome =
    | Next(response: Response)
    | Answered(response: Response, log: LogLine)

  /** A string field is truthy when it is present and not empty. */
  predicate Present(field: Option<string>) {
    field.Some? && field.value != ""
  }

  /** The realm carries a type, an environment and a charset. */
  predicate RealmComplete(realm: Option<Realm>) {
    realm.Some? && Present(realm.value.kind) && Present(realm.value.env) && Present(realm.value.charset)
  }

  /** The status the handler leaves on the response, from the one already on
      it and the error's status. */
  function FinalStatus(prior: int, status: StatusField): (code: int)
    ensures code >= 400
    ensures status.Truthy? && status.asNumber.Some? && status.asNumber.value >= 400 ==> code == status.asNumber.value
    ensures status.Falsy? && prior >= 400 ==> code == prior
  {
    var supplied := if status.Truthy? then status.asNumber else Some(prior);
    if supplied.None? || supplied.value == 0 || supplied.value < 400 then InternalServerError else supplied.value
  }

  /** A header name as Node keys it: no upper-case ASCII letter. */
  predicate LowerCaseName(name: string) {
    forall i :: 0 <= i < |name| ==> !('A' <= name[i] <= 'Z')
  }

  /** The challenge `<type> realm="<env>", charset="<charset>"`. */
  function Challenge(kind: string, env: string, charset: string): (value: string)
    ensures |value| == |kind| + |env| + |charset| + 21
    ensures value[..|kind|] == kind
    ensures value[|kind|..|kind| + 8] == " realm=\""
    ensures value[|kind| + 8..|kind| + 8 + |env|] == env
    ensures value[|kind| + 8 + |env|..|kind| + 20 + |env|] == "\", charset=\""
    ensures value[|value| - |charset| - 1..|value| - 1] == charset
    ensures value[|value| - 1] == '"'
  {
    kind + " realm=\"" + env + "\", charset=\"" + charset + "\""
  }

  /** The handler's response headers: the challenge for a 401 with a complete
      realm, then the JSON content type, over the headers already set. */
  function Headers(prior: map<string, string>, status: int, realm: Option<Realm>): map<string, string> {
    var challenged :=
      if status == Unauthorized && RealmComplete(realm)
      then prior["www-authenticate" := Challenge(realm.value.kind.value, realm.value.env.value, realm.value.charset.value)]
      else prior;
    challenged["content-type" := "application/json"]
  }

  /** The handler returned by `ErrorHandler(logger)`. */
  function Handle(err: Option<RequestError>, req: Request, res: Response): (out: Outcome)
    ensures out.Next? <==> err.None?
    ensures out.Next? ==> out.response == res
  {
    match err
    case None => Next(res)
    case Some(e) =>
      var status := FinalStatus(res.statusCode, e.status);
      var response := Response(status, Headers(res.headers, status, e.realm), Some(ErrorResponseBody("server_error", None, None)));
      var log :=
        if status >= 500 then LogLine(Error, "A Request failed", status, e.message, req)
        else LogLine(Info, e.message, status, e.message, req);
      Answered(response, log)
  }

  /** An answered request always ends with an error status, and that status
      is either the error's own status of at least 400, the status already on
      the response, or 500. */
  lemma AnsweredStatus(e: RequestError, req: Request, res: Response)
    ensures var out := Handle(Some(e), req, res);
      && out.Answered?
      && out.response.statusCode >= 400
      && (|| (e.status.Truthy? && e.status.asNumber == Some(out.response.statusCode))
          || (e.status.Falsy? && out.response.statusCode == res.statusCode)
          || out.response.statusCode == InternalServerError)
  {
  }

  /** The status is 500 exactly when no status of at least 400 was supplied by
      the error or, failing an error status, by the response, or when the
      supplied one was 500. */
  lemma StatusForced(e: RequestError, req: Request, res: Response)
    ensures var supplied := if e.status.Truthy? then e.status.asNumber else Some(res.statusCode);
      var forced := supplied.None? || supplied.value < 400 || supplied.value == InternalServerError;
      Handle(Some(e), req, res).response.statusCode == InternalServerError <==> forced
  {
  }

  /** The challenge header is set exactly for a 401 with a complete realm, and
      then carries the realm's three fields. */
  lemma ChallengeIff(e: RequestError, req: Request, res: Response)
    requires "www-authenticate" !in res.headers
    ensures var out := Handle(Some(e), req, res);
      var challenged := out.response.statusCode == Unauthorized && RealmComplete(e.realm);
      "www-authenticate" in out.response.headers <==> challenged
    ensures var out := Handle(Some(e), req, res);
      "www-authenticate" in out.response.headers ==>
        out.response.headers["www-authenticate"]
          == Challenge(e.realm.value.kind.value, e.realm.value.env.value, e.realm.value.charset.value)
  {
  }

  /** An answered request carries the `server_error` body as JSON, replacing any
      content type set before; every other header keeps the value it had, and
      header names stay lower-case. */
  lemma AnsweredBody(e: RequestError, req: Request, res: Response)
    ensures var out := Handle(Some(e), req, res);
      && out.response.body == Some(ErrorResponseBody("server_error", None, None))
      && out.response.headers["content-type"] == "application/json"
      && (forall h :: h in res.headers && h != "content-type" && h != "www-authenticate" ==>
            h in out.response.headers && out.response.headers[h] == res.headers[h])
      && out.response.headers.Keys <= res.headers.Keys + {"content-type", "www-authenticate"}
    ensures (forall h :: h in res.headers ==> LowerCaseName(h)) ==>
      forall h :: h in Handle(Some(e), req, res).response.headers ==> LowerCaseName(h)
  {
  }

  /** The failure is logged as an error exactly when the status is 500 or more,
      and otherwise at info with the error's message; the log's context reports
      the final status, the error's message and the request. */
  lemma LogSeverity(e: RequestError, req: Request, res: Response)
    ensures var out := Handle(Some(e), req, res);
      && (out.log.severity == Error <==> out.response.statusCode >= 500)
      && (out.log.severity == Error ==> out.log.message == "A Request failed")
      && (out.log.severity == Info ==> out.log.message == e.message)
      && out.log.httpStatusCode == out.response.statusCode
      && out.log.errorMessage == e.message
      && out.log.request == req
  {
  }

  /** A 404 from the error is kept, answered with a challenge-free JSON body,
      and logged at info; a status that is not a number becomes 500 and is
      logged as an error that still carries the error's message. */
  lemma HandlerScenarios(req: Request)
    ensures var res := Response(200, map[], None);
      var notFound := Handle(Some(RequestError(Truthy(Some(404)), None, "not found")), req, res);
      && notFound.response.statusCode == 404
      && notFound.response.headers == map["content-type" := "application/json"]
      && notFound.log == LogLine(Info, "not found", 404, "not found", req)
    ensures var res := Response(200, map[], None);
      var broken := Handle(Some(RequestError(Truthy(None), None, "boom")), req, res);
      && broken.response.statusCode == 500
      && broken.log == LogLine(Error, "A Request failed", 500, "boom", req)
  {
  }

  /** A content type set before the failure is replaced, not duplicated. */
  lemma ContentTypeReplaced(req: Request)
    ensures var res := Response(200, map["content-type" := "text/html"], None);
      Handle(Some(RequestError(Truthy(Some(404)), None, "not found")), req, res).response.headers
        == map["content-type" := "application/json"]
  {
  }

  /** Two failures at the same status with different messages log different
      lines. */
  lemma LogKeepsMessage(req: Request)
    ensures var res := Response(200, map[], None);
      Handle(Some(RequestError(Truthy(Some(503)), None, "db down")), req, res).log
        != Handle(Some(RequestError(Truthy(Some(503)), None, "other")), req, res).log
  {
  }

  /** A 401 with a complete realm is challenged with the realm's fields. */
  lemma ChallengeScenario(req: Request)
    ensures var e := RequestError(Truthy(Some(401)), Some(Realm(Some("Bearer"), Some("prod"), Some("UTF-8"))), "denied");
      Handle(Some(e), req, Response(200, map[], None)).response.headers["www-authenticate"]
        == "Bearer realm=\"prod\", charset=\"UTF-8\""
  {
    ChallengeText();
  }

  lemma ChallengeText()
    ensures Challenge("Bearer", "prod", "UTF-8") == "Bearer realm=\"prod\", charset=\"UTF-8\""
  {
    var v := Challenge("Bearer", "prod", "UTF-8");
    assert v == "Bearer" + " realm=\"" + "prod" + "\", charset=\"" + "UTF-8" + "\"";
  }
}
