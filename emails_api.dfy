/**
 * The request handler of the `/api/emails` endpoint: dispatch on the HTTP
 * method, validation and normalisation of the submitted address, the
 * best-effort client metadata, the demo-data heuristic and the JSON bodies
 * of every outcome. The handler updates the response object step by step and
 * makes at most one call on the table.
 */
module EmailsApi {
  import opened Wrappers
  import opened JsText
  import opened Json
  import opened Http
  import opened Submissions
  import opened Supabase

  // ---------------------------------------------------------------------------
  // Cross-origin headers, set before anything else on every request

  const AllowOriginHeader := "Access-Control-Allow-Origin"
  const AllowMethodsHeader := "Access-Control-Allow-Methods"
  const AllowHeadersHeader := "Access-Control-Allow-Headers"

  /** The headers of a response after the three cross-origin headers are set on it. */
  function WithCors(headers: map<string, string>): (h: map<string, string>)
    ensures h.Keys == headers.Keys + {AllowOriginHeader, AllowMethodsHeader, AllowHeadersHeader}
    ensures h[AllowOriginHeader] == "*"
    ensures h[AllowMethodsHeader] == "GET, POST, DELETE, OPTIONS"
    ensures h[AllowHeadersHeader] == "Content-Type"
    ensures forall k :: k in headers && k != AllowOriginHeader && k != AllowMethodsHeader && k != AllowHeadersHeader ==>
              h[k] == headers[k]
  {
    headers[AllowOriginHeader := "*"][AllowMethodsHeader := "GET, POST, DELETE, OPTIONS"][AllowHeadersHeader := "Content-Type"]
  }

  // ---------------------------------------------------------------------------
  // Validation of the `email` field

  /** How `const { email } = req.body` followed by the validity check and
      `email.toLowerCase()` ends: with an address to store, with the 400 answer,
      or with a TypeError that the outer `catch` turns into a 500. */
  datatype EmailCheck = Accepted(raw: string) | Rejected | Thrown

  /** `!email || !email.includes('@')` and the `toLowerCase` that follows, for the
      value of `email` (`None` is `undefined`). A string passes when it contains '@';
      an array answers `includes` by looking for an element "@" and then has no
      `toLowerCase`; other truthy values have no `includes`. */
  function CheckEmailValue(v: Option<Json>): (c: EmailCheck)
    ensures c.Accepted? <==> v.Some? && v.value.Str? && '@' in v.value.s
    ensures c.Accepted? ==> v == Some(Str(c.raw))
    ensures v.None? || v == Some(Null) || v == Some(Str("")) ==> c.Rejected?
    ensures v.Some? && v.value.Str? && '@' !in v.value.s ==> c.Rejected?
    ensures v.Some? && !Truthy(v.value) ==> c.Rejected?
    ensures v.Some? && v.value.Array? ==> (c.Thrown? <==> Str("@") in v.value.items)
    ensures v.Some? && Truthy(v.value) && !v.value.Str? && !v.value.Array? ==> c.Thrown?
  {
    if v.None? || !Truthy(v.value) then Rejected
    else match v.value
      case Str(s) => if '@' in s then Accepted(s) else Rejected
      case Array(items) => if Str("@") in items then Thrown else Rejected
      case _ => Thrown
  }

  /** The check applied to the whole body: destructuring a `null` or `undefined`
      body throws before the field is looked at. */
  function CheckEmail(body: Option<Json>): (c: EmailCheck)
    ensures body.None? || body == Some(Null) ==> c.Thrown?
    ensures c.Accepted? <==>
              body.Some? && body.value.Object? &&
              Property(body.value.members, "email").Some? &&
              Property(body.value.members, "email").value.Str? &&
              '@' in Property(body.value.members, "email").value.s
    ensures c.Accepted? ==> Property(body.value.members, "email") == Some(Str(c.raw))
    ensures body.Some? && body.value.Object? ==> c == CheckEmailValue(Property(body.value.members, "email"))
    ensures body.Some? && !body.value.Null? && !body.value.Object? ==> c.Rejected?
  {
    if body.None? || body.value.Null? then Thrown
    else CheckEmailValue(Member(body.value, "email"))
  }

  // ---------------------------------------------------------------------------
  // Normalisation of the address: `email.toLowerCase().trim()`

  /** The stored form of an address: no upper-case letter, no whitespace at either end. */
  predicate IsNormalizedEmail(e: string) {
    (forall i :: 0 <= i < |e| ==> !IsAsciiUpper(e[i])) &&
    (e == [] || (!IsJsWhitespace(e[0]) && !IsJsWhitespace(e[|e| - 1])))
  }

  /** Normalising yields the stored form and keeps or lacks '@' exactly as the input
      does, so the check on the raw input also holds of the stored address. */
  function NormalizeEmail(raw: string): (e: string)
    ensures IsNormalizedEmail(e)
    ensures '@' in e <==> '@' in raw
  {
    var lower := ToLowerCase(raw);
    NoUpperSurvivesTrim(lower);
    LowerKeepsAt(raw);
    TrimKeepsNonWhitespace(lower, '@');
    Trim(lower)
  }

  /** An address already in stored form is left as it is. */
  lemma NormalizedIsFixpoint(e: string)
    requires IsNormalizedEmail(e)
    ensures NormalizeEmail(e) == e
  {
    assert ToLowerCase(e) == e;
    TrimFixesTrimmed(e);
  }

  lemma NormalizeEmailIdempotent(raw: string)
    ensures NormalizeEmail(NormalizeEmail(raw)) == NormalizeEmail(raw)
  {
    NormalizedIsFixpoint(NormalizeEmail(raw));
  }

  // ---------------------------------------------------------------------------
  // The record handed to the store

  /** `x-forwarded-for`, else `x-real-ip`, else "unknown" (an empty header is skipped). */
  function ClientIp(headers: map<string, string>): (ip: string)
    ensures "x-forwarded-for" in headers && headers["x-forwarded-for"] != "" ==> ip == headers["x-forwarded-for"]
    ensures ("x-forwarded-for" !in headers || headers["x-forwarded-for"] == "") ==>
              ("x-real-ip" in headers && headers["x-real-ip"] != "" ==> ip == headers["x-real-ip"]) &&
              ("x-real-ip" !in headers || headers["x-real-ip"] == "" ==> ip == "unknown")
  {
    HeaderOr(headers, "x-forwarded-for", HeaderOr(headers, "x-real-ip", "unknown"))
  }

  /** `user-agent`, else "unknown". */
  function UserAgent(headers: map<string, string>): (ua: string)
    ensures "user-agent" in headers && headers["user-agent"] != "" ==> ua == headers["user-agent"]
    ensures ("user-agent" !in headers || headers["user-agent"] == "") ==> ua == "unknown"
  {
    HeaderOr(headers, "user-agent", "unknown")
  }

  /** The submission built from an accepted address; `id` and `now` are the generated
      identifier and the ISO time of the request. */
  function NewSubmission(raw: string, headers: map<string, string>, id: string, now: string): (s: Submission)
    requires '@' in raw
    ensures s.email == NormalizeEmail(raw) && '@' in s.email && IsNormalizedEmail(s.email)
    ensures s.id == id && s.timestamp == now && s.createdAt.None?
    ensures s.ipAddress == ClientIp(headers) && s.userAgent == UserAgent(headers)
  {
    Submission(id, NormalizeEmail(raw), now, ClientIp(headers), UserAgent(headers), None)
  }

  /** Every stored address is in stored form and contains '@'. */
  ghost predicate AllNormalized(rows: seq<Submission>) {
    forall i :: 0 <= i < |rows| ==> '@' in rows[i].email && IsNormalizedEmail(rows[i].email)
  }

  /** Appending a row whose address is in stored form keeps every address in stored form. */
  lemma AppendKeepsNormalized(rows: seq<Submission>, row: Submission)
    requires AllNormalized(rows)
    requires '@' in row.email && IsNormalizedEmail(row.email)
    ensures AllNormalized(rows + [row])
  {
    forall i | 0 <= i < |rows + [row]|
      ensures '@' in (rows + [row])[i].email && IsNormalizedEmail((rows + [row])[i].email)
    {
      if i < |rows| {
        assert (rows + [row])[i] == rows[i];
      }
    }
  }

  // ---------------------------------------------------------------------------
  // Demo data

  /** `emails.some(email => email.id.startsWith('demo-'))`. */
  function IsDemo(emails: seq<Submission>): (b: bool)
    ensures b <==> exists i :: 0 <= i < |emails| && "demo-" <= emails[i].id
  {
    if emails == [] then false
    else "demo-" <= emails[0].id || IsDemo(emails[1..])
  }

  // ---------------------------------------------------------------------------
  // Response bodies

  const InvalidEmailBody: Json :=
    Object([("error", Str("Valid email address is required")), ("success", Bool(false))])

  /** The 201 body. */
  function SavedBody(saved: Submission): Json {
    Object([("success", Bool(true)), ("message", Str("Email saved successfully to database")),
            ("id", Str(saved.id)), ("email", Str(saved.email)), ("timestamp", Str(saved.timestamp))])
  }

  /** The 201 body reports success with the `id`, `email` and `timestamp` of the
      row the store returned. */
  lemma SavedBodyFields(saved: Submission)
    ensures SavedBody(saved).Object?
    ensures Property(SavedBody(saved).members, "success") == Some(Bool(true))
    ensures Property(SavedBody(saved).members, "message") == Some(Str("Email saved successfully to database"))
    ensures Property(SavedBody(saved).members, "id") == Some(Str(saved.id))
    ensures Property(SavedBody(saved).members, "email") == Some(Str(saved.email))
    ensures Property(SavedBody(saved).members, "timestamp") == Some(Str(saved.timestamp))
  {
    var members := SavedBody(saved).members;
    PropertyAt(members, 0);
    PropertyAt(members, 1);
    PropertyAt(members, 2);
    PropertyAt(members, 3);
    PropertyAt(members, 4);
  }

  const SaveFailedBody: Json :=
    Object([("error", Str("Failed to save email to database")), ("success", Bool(false)),
            ("details", Str("Database connection issue. Please try again."))])

  /** The `emails` array of a listing: each row in its JSON form, in order. */
  function RowsJson(emails: seq<Submission>): (j: Json)
    ensures j.Array? && |j.items| == |emails|
    ensures forall i :: 0 <= i < |emails| ==> j.items[i] == ToJson(emails[i])
  {
    Array(seq(|emails|, i requires 0 <= i < |emails| => ToJson(emails[i])))
  }

  /** The status of a listing: `demo_mode` exactly when some id starts with "demo-". */
  function DatabaseStatus(emails: seq<Submission>): (status: string)
    ensures status == "demo_mode" <==> exists i :: 0 <= i < |emails| && "demo-" <= emails[i].id
    ensures status != "demo_mode" ==> status == "connected"
  {
    if IsDemo(emails) then "demo_mode" else "connected"
  }

  /** The `message` of a listing: the demo text when some id starts with "demo-",
      otherwise the number of rows in decimal followed by a fixed text. */
  function ListingMessage(emails: seq<Submission>): (m: string)
    ensures (exists i :: 0 <= i < |emails| && "demo-" <= emails[i].id) ==>
              m == "Showing demo data. Configure Supabase to see real submissions!"
    ensures (forall i :: 0 <= i < |emails| ==> !("demo-" <= emails[i].id)) ==>
              m == NatToString(|emails|) + " real email submissions collected from database!"
  {
    if IsDemo(emails) then "Showing demo data. Configure Supabase to see real submissions!"
    else NatToString(|emails|) + " real email submissions collected from database!"
  }

  /** The members of a listing body, from its parts. */
  function ListingMembers(rows: Json, total: int, message: string, status: string): seq<(string, Json)> {
    [("success", Bool(true)), ("emails", rows), ("total", Number(total)),
     ("message", Str(message)), ("database_status", Str(status))]
  }

  /** Each of the five members of a listing reads back as the part it was built from. */
  lemma ListingMembersFields(rows: Json, total: int, message: string, status: string)
    ensures Property(ListingMembers(rows, total, message, status), "success") == Some(Bool(true))
    ensures Property(ListingMembers(rows, total, message, status), "emails") == Some(rows)
    ensures Property(ListingMembers(rows, total, message, status), "total") == Some(Number(total))
    ensures Property(ListingMembers(rows, total, message, status), "message") == Some(Str(message))
    ensures Property(ListingMembers(rows, total, message, status), "database_status") == Some(Str(status))
  {
    var members := ListingMembers(rows, total, message, status);
    PropertyAt(members, 0);
    PropertyAt(members, 1);
    PropertyAt(members, 2);
    PropertyAt(members, 3);
    PropertyAt(members, 4);
  }

  /** The 200 body of a listing. */
  function ListedBody(emails: seq<Submission>): Json {
    Object(ListingMembers(RowsJson(emails), |emails|, ListingMessage(emails), DatabaseStatus(emails)))
  }

  /** A listing reports success, all the listed rows, their number as `total`, its
      `ListingMessage` and its `DatabaseStatus`. */
  lemma ListedBodyFields(emails: seq<Submission>)
    ensures ListedBody(emails).Object?
    ensures Property(ListedBody(emails).members, "success") == Some(Bool(true))
    ensures Property(ListedBody(emails).members, "emails") == Some(RowsJson(emails))
    ensures Property(ListedBody(emails).members, "total") == Some(Number(|emails|))
    ensures Property(ListedBody(emails).members, "message") == Some(Str(ListingMessage(emails)))
    ensures Property(ListedBody(emails).members, "database_status") == Some(Str(DatabaseStatus(emails)))
  {
    ListingMembersFields(RowsJson(emails), |emails|, ListingMessage(emails), DatabaseStatus(emails));
  }

  const FetchFailedBody: Json :=
    Object([("error", Str("Failed to fetch emails from database")), ("success", Bool(false)),
            ("details", Str("Database connection issue. Please check Supabase configuration."))])

  /** The 200 body of a clear. */
  function ClearedBody(deletedCount: nat): Json {
    Object([("success", Bool(true)),
            ("message", Str("Deleted " + NatToString(deletedCount) + " email records from database")),
            ("deletedCount", Number(deletedCount))])
  }

  /** A clear reports success, the count `clearEmails` returned as `deletedCount`, and
      that count in decimal inside its message. */
  lemma ClearedBodyFields(deletedCount: nat)
    ensures ClearedBody(deletedCount).Object?
    ensures Property(ClearedBody(deletedCount).members, "success") == Some(Bool(true))
    ensures Property(ClearedBody(deletedCount).members, "deletedCount") == Some(Number(deletedCount))
    ensures Property(ClearedBody(deletedCount).members, "message") ==
              Some(Str("Deleted " + NatToString(deletedCount) + " email records from database"))
  {
    var members := ClearedBody(deletedCount).members;
    PropertyAt(members, 0);
    PropertyAt(members, 1);
    PropertyAt(members, 2);
  }

  const ClearFailedBody: Json :=
    Object([("error", Str("Failed to clear emails from database")), ("success", Bool(false)),
            ("details", Str("Database connection issue. Please check Supabase configuration."))])

  const MethodNotAllowedBody: Json := Object([("error", Str("Method not allowed"))])

  /** The outer `catch`: the one body that carries the message of the error. */
  function InternalErrorBody(details: string): Json {
    Object([("error", Str("Internal server error")), ("success", Bool(false)), ("details", Str(details))])
  }

  /** Every failure body names its error and reports `success: false`, except the
      405 body, which carries only its error; the outer `catch` passes the error's
      message on as `details`. */
  lemma FailureBodiesFields(details: string)
    ensures Property(InvalidEmailBody.members, "error") == Some(Str("Valid email address is required"))
    ensures Property(InvalidEmailBody.members, "success") == Some(Bool(false))
    ensures Property(SaveFailedBody.members, "error") == Some(Str("Failed to save email to database"))
    ensures Property(SaveFailedBody.members, "success") == Some(Bool(false))
    ensures Property(FetchFailedBody.members, "error") == Some(Str("Failed to fetch emails from database"))
    ensures Property(FetchFailedBody.members, "success") == Some(Bool(false))
    ensures Property(ClearFailedBody.members, "error") == Some(Str("Failed to clear emails from database"))
    ensures Property(ClearFailedBody.members, "success") == Some(Bool(false))
    ensures Property(MethodNotAllowedBody.members, "error") == Some(Str("Method not allowed"))
    ensures Property(MethodNotAllowedBody.members, "success") == None
    ensures Property(InternalErrorBody(details).members, "error") == Some(Str("Internal server error"))
    ensures Property(InternalErrorBody(details).members, "success") == Some(Bool(false))
    ensures Property(InternalErrorBody(details).members, "details") == Some(Str(details))
  {
    PropertyAt(InvalidEmailBody.members, 0);
    PropertyAt(InvalidEmailBody.members, 1);
    PropertyAt(SaveFailedBody.members, 0);
    PropertyAt(SaveFailedBody.members, 1);
    PropertyAt(FetchFailedBody.members, 0);
    PropertyAt(FetchFailedBody.members, 1);
    PropertyAt(ClearFailedBody.members, 0);
    PropertyAt(ClearFailedBody.members, 1);
    PropertyAt(MethodNotAllowedBody.members, 0);
    PropertyIsLast(MethodNotAllowedBody.members, "success");
    PropertyAt(InternalErrorBody(details).members, 0);
    PropertyAt(InternalErrorBody(details).members, 1);
    PropertyAt(InternalErrorBody(details).members, 2);
  }

  // ---------------------------------------------------------------------------
  // The handler

  /** What a request receives from outside the handler: the generated identifier
      (`crypto.randomUUID()` or its fallback), the ISO time of the request, the
      message of a TypeError raised while reading the body, and the replies the
      database gives to each query the handler may issue. */
  datatype Environment = Environment(
    id: string,
    now: string,
    typeErrorMessage: string,
    listReply: ReadReply,
    insertReply: InsertReply,
    countReply: ReadReply,
    deleteReply: DeleteReply)

  /** The three `res.setHeader` calls that open every request. */
  method SetCorsHeaders(res: Response)
    requires !res.finished
    modifies res
    ensures res.headers == WithCors(old(res.headers))
    ensures res.statusCode == old(res.statusCode) && res.payload == old(res.payload) && !res.finished
  {
    res.SetHeader(AllowOriginHeader, "*");
    res.SetHeader(AllowMethodsHeader, "GET, POST, DELETE, OPTIONS");
    res.SetHeader(AllowHeadersHeader, "Content-Type");
  }

  /** Saving the record built from an accepted address: insert it, answer 201 or 500. */
  method Save(data: Submission, res: Response, table: EmailTable, env: Environment)
    requires !res.finished
    modifies res, table
    ensures res.finished && res.headers == old(res.headers)
    ensures env.insertReply.Inserted? ==>
              var row := Persisted(data, env.insertReply.createdAt);
              res.statusCode == 201 && res.payload == JsonPayload(SavedBody(row)) &&
              table.rows == old(table.rows) + [row]
    ensures env.insertReply.InsertFailed? ==>
              res.statusCode == 500 && res.payload == JsonPayload(SaveFailedBody) && table.rows == old(table.rows)
  {
    var saved := table.AddEmail(data, env.insertReply);
    if saved.Ok? {
      res.Status(201);
      res.SendJson(SavedBody(saved.value));
    } else {
      res.Status(500);
      res.SendJson(SaveFailedBody);
    }
  }

  /** The POST branch: validate, then save or answer 400 (or 500 for a TypeError). */
  method Submit(req: Request, res: Response, table: EmailTable, env: Environment)
    requires !res.finished
    modifies res, table
    ensures res.finished && res.headers == old(res.headers)
    ensures CheckEmail(req.body).Thrown? ==>
              res.statusCode == 500 && res.payload == JsonPayload(InternalErrorBody(env.typeErrorMessage)) &&
              table.rows == old(table.rows)
    ensures CheckEmail(req.body).Rejected? ==>
              res.statusCode == 400 && res.payload == JsonPayload(InvalidEmailBody) && table.rows == old(table.rows)
    ensures CheckEmail(req.body).Accepted? && env.insertReply.Inserted? ==>
              var row := Persisted(NewSubmission(CheckEmail(req.body).raw, req.headers, env.id, env.now),
                                   env.insertReply.createdAt);
              res.statusCode == 201 && res.payload == JsonPayload(SavedBody(row)) &&
              table.rows == old(table.rows) + [row]
    ensures CheckEmail(req.body).Accepted? && env.insertReply.InsertFailed? ==>
              res.statusCode == 500 && res.payload == JsonPayload(SaveFailedBody) && table.rows == old(table.rows)
    ensures AllNormalized(old(table.rows)) ==> AllNormalized(table.rows)
  {
    var check := CheckEmail(req.body);
    if check.Thrown? {
      res.Status(500);
      res.SendJson(InternalErrorBody(env.typeErrorMessage));
    } else if check.Rejected? {
      res.Status(400);
      res.SendJson(InvalidEmailBody);
    } else {
      var data := NewSubmission(check.raw, req.headers, env.id, env.now);
      Save(data, res, table, env);
      if AllNormalized(old(table.rows)) && env.insertReply.Inserted? {
        AppendKeepsNormalized(old(table.rows), Persisted(data, env.insertReply.createdAt));
      }
    }
  }

  /** The GET branch: list the rows and describe them. */
  method List(res: Response, table: EmailTable, env: Environment)
    requires !res.finished
    modifies res
    ensures res.finished && res.headers == old(res.headers)
    ensures env.listReply.ReadFailed? ==> res.statusCode == 500 && res.payload == JsonPayload(FetchFailedBody)
    ensures !env.listReply.ReadFailed? ==>
              res.statusCode == old(res.statusCode) &&
              res.payload == JsonPayload(ListedBody(if env.listReply.Rows? then OrderByTimestampDesc(table.rows, table.instant) else []))
  {
    var emails := table.GetEmails(env.listReply);
    match emails {
      case Ok(list) =>
        res.SendJson(ListedBody(list));
      case Err(_) =>
        res.Status(500);
        res.SendJson(FetchFailedBody);
    }
  }

  /** The DELETE branch: clear the table and report the count. */
  method Clear(res: Response, table: EmailTable, env: Environment)
    requires !res.finished
    modifies res, table
    ensures res.finished && res.headers == old(res.headers)
    ensures env.deleteReply.DeleteFailed? ==>
              res.statusCode == 500 && res.payload == JsonPayload(ClearFailedBody) && table.rows == old(table.rows)
    ensures env.deleteReply.Deleted? ==>
              res.statusCode == old(res.statusCode) && table.rows == [] &&
              res.payload == JsonPayload(ClearedBody(if env.countReply.Rows? then |old(table.rows)| else 0))
  {
    var deleted := table.ClearEmails(env.countReply, env.deleteReply);
    match deleted {
      case Ok(deletedCount) =>
        res.SendJson(ClearedBody(deletedCount));
      case Err(_) =>
        res.Status(500);
        res.SendJson(ClearFailedBody);
    }
  }

  /** `handler(req, res)`: cross-origin headers first, then dispatch on the method. */
  method Handler(req: Request, res: Response, table: EmailTable, env: Environment)
    requires !res.finished && res.statusCode == 200
    modifies res, table
    ensures res.finished
    ensures res.headers == WithCors(old(res.headers))
    // preflight: 200 with no body, no query
    ensures req.verb == "OPTIONS" ==>
              res.statusCode == 200 && res.payload == NoPayload && table.rows == old(table.rows)
    // submission
    ensures req.verb == "POST" && CheckEmail(req.body).Thrown? ==>
              res.statusCode == 500 && res.payload == JsonPayload(InternalErrorBody(env.typeErrorMessage)) &&
              table.rows == old(table.rows)
    ensures req.verb == "POST" && CheckEmail(req.body).Rejected? ==>
              res.statusCode == 400 && res.payload == JsonPayload(InvalidEmailBody) && table.rows == old(table.rows)
    ensures req.verb == "POST" && CheckEmail(req.body).Accepted? && env.insertReply.Inserted? ==>
              var row := Persisted(NewSubmission(CheckEmail(req.body).raw, req.headers, env.id, env.now),
                                   env.insertReply.createdAt);
              res.statusCode == 201 && res.payload == JsonPayload(SavedBody(row)) &&
              table.rows == old(table.rows) + [row]
    ensures req.verb == "POST" && CheckEmail(req.body).Accepted? && env.insertReply.InsertFailed? ==>
              res.statusCode == 500 && res.payload == JsonPayload(SaveFailedBody) && table.rows == old(table.rows)
    // listing
    ensures req.verb == "GET" && env.listReply.ReadFailed? ==>
              res.statusCode == 500 && res.payload == JsonPayload(FetchFailedBody) && table.rows == old(table.rows)
    ensures req.verb == "GET" && !env.listReply.ReadFailed? ==>
              res.statusCode == 200 && table.rows == old(table.rows) &&
              res.payload == JsonPayload(ListedBody(if env.listReply.Rows? then OrderByTimestampDesc(old(table.rows), table.instant) else []))
    // clearing
    ensures req.verb == "DELETE" && env.deleteReply.DeleteFailed? ==>
              res.statusCode == 500 && res.payload == JsonPayload(ClearFailedBody) && table.rows == old(table.rows)
    ensures req.verb == "DELETE" && env.deleteReply.Deleted? ==>
              res.statusCode == 200 && table.rows == [] &&
              res.payload == JsonPayload(ClearedBody(if env.countReply.Rows? then |old(table.rows)| else 0))
    // anything else
    ensures req.verb != "OPTIONS" && req.verb != "POST" && req.verb != "GET" && req.verb != "DELETE" ==>
              res.statusCode == 405 && res.payload == JsonPayload(MethodNotAllowedBody) && table.rows == old(table.rows)
    // the table only ever receives addresses in stored form
    ensures AllNormalized(old(table.rows)) ==> AllNormalized(table.rows)
  {
    SetCorsHeaders(res);
    if req.verb == "OPTIONS" {
      res.Status(200);
      res.End();
    } else if req.verb == "POST" {
      Submit(req, res, table, env);
    } else if req.verb == "GET" {
      List(res, table, env);
    } else if req.verb == "DELETE" {
      Clear(res, table, env);
    } else {
      res.Status(405);
      res.SendJson(MethodNotAllowedBody);
    }
  }

  /** Three stored rows, a DELETE, then a GET: the DELETE reports 3 and the GET lists nothing. */
  method DeleteThenListScenario(a: Submission, b: Submission, c: Submission, instant: string -> int, env: Environment)
    requires env.countReply.Rows? && env.deleteReply.Deleted? && env.listReply.Rows?
  {
    var table := new EmailTable(instant);
    table.rows := [a, b, c];

    var first := new Response();
    Handler(Request("DELETE", None, map[]), first, table, env);
    assert first.statusCode == 200 && first.payload == JsonPayload(ClearedBody(3));

    var second := new Response();
    Handler(Request("GET", None, map[]), second, table, env);
    assert second.payload == JsonPayload(ListedBody([]));
    ListedBodyFields([]);
    assert Property(ListedBody([]).members, "total") == Some(Number(0));
  }

  /** A POST whose body is `{}`, then one whose `email` lacks '@': both answer 400
      with the validation body and leave the table empty. */
  method InvalidPostScenario(instant: string -> int, env: Environment)
  {
    var table := new EmailTable(instant);

    var first := new Response();
    Handler(Request("POST", Some(Object([])), map[]), first, table, env);
    assert first.statusCode == 400 && first.payload == JsonPayload(InvalidEmailBody);

    var second := new Response();
    Handler(Request("POST", Some(Object([("email", Str("abc"))])), map[]), second, table, env);
    assert second.statusCode == 400 && second.payload == JsonPayload(InvalidEmailBody);
    assert table.rows == [];
  }
}
