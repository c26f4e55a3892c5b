# Email collection endpoint — a Dafny model

The system is a small serverless endpoint, `/api/emails`, that collects email
addresses. A POST validates and normalises an address and inserts it, with the
client's IP address and user agent, into a hosted `emails` table. A GET lists the
stored submissions newest first and says whether they look like placeholder
("demo") data. A DELETE removes every row and reports how many there were. An
OPTIONS request is a cross-origin preflight. Every response carries permissive
cross-origin headers. A storage accessor wraps the database client with list,
insert and delete-all operations, plus a pure statistics function.

The model has seven modules:

- `Wrappers`: `Option` and `Result`.
- `JsText`: the JavaScript string operations the code uses. `toLowerCase` is
  modelled on ASCII letters. `trim` uses the exact ECMAScript whitespace and
  line-terminator set. Also `split('T')[0]` and the decimal rendering of a count
  in a template literal.
- `Json`: JSON values, truthiness, and property lookup, where the later of two
  equal keys wins.
- `Http`: the request (method, parsed body, headers) and the response object
  `res` as a class. `setHeader`, `status`, `end` and `json` update its fields.
- `Submissions`: the email-submission record and its JSON form.
- `Supabase` (`lib/supabase.js`): the table is the class `EmailTable`, holding a
  sequence of rows. `GetEmails`, `AddEmail` and `ClearEmails` are methods on it.
  Each database round trip either succeeds or fails according to a reply the
  method is given as a parameter (`ReadReply`, `InsertReply`, `DeleteReply`).
  `GetStats` is a pure count.
- `EmailsApi` (`api/emails.js`): `Handler` sets the three cross-origin headers,
  dispatches on the method and answers through `res`. Its branches are the
  methods `Submit`, `Save`, `List` and `Clear`. Each decision is a pure
  function with a contract: the `email` check, normalisation, the header
  fallbacks, the demo test and every response body.

Inputs from outside the handler are parameters, bundled in `Environment`: the
generated id, the ISO timestamp of the request, the text of a TypeError, and the
database's reply to each query. `GetStats` takes the current ISO time, the
instant one week ago and a date parser. `EmailTable.instant` is how the database
reads a timestamp when it orders rows.

JavaScript semantics that the code relies on without saying so are modelled
explicitly:

- `const { email } = req.body` throws a TypeError when the body is `null` or
  `undefined`. The outer `catch` turns this into a 500.
- `!email` rejects every falsy value (`undefined`, `null`, `false`, `0`, `""`).
- `email.includes('@')` throws on truthy non-strings other than arrays. For an
  array it looks for an element `"@"`, and the `toLowerCase` after it then throws.

Besides a missing or `@`-less value, the code also rejects the other falsy values
and answers 500 to a truthy non-string, except an array without an element `"@"`,
which is rejected with 400. `CheckEmailValue` states each of these outcomes.

`api/emails.js` imports its store functions from `./db.js`, and that file is not
part of this model. The model takes those functions to behave as the ones in
`lib/supabase.js`.

## Model

| member | source | states |
|---|---|---|
| `JsText.LowerChar` | api/emails.js:29 | Maps an ASCII capital letter to its own lower-case letter (code point plus 32). Never returns an ASCII capital letter. Leaves every other character alone. Keeps whitespace and `@` as they are. |
| `JsText.ToLowerCase` | api/emails.js:29 | Same length as the input. Each character is mapped by `LowerChar`. |
| `JsText.TrimStart` | api/emails.js:29 | Returns a suffix of the input. Everything dropped is whitespace. The result does not start with whitespace. |
| `JsText.TrimEnd` | api/emails.js:29 | Returns a prefix of the input. Everything dropped is whitespace. The result does not end with whitespace. |
| `JsText.Trim` | api/emails.js:29 | Returns the infix of the input left after removing the whitespace at both ends. Neither end of the result is whitespace. |
| `JsText.TrimFixesTrimmed` | api/emails.js:29 | A string whose ends are not whitespace is left unchanged by `trim`. |
| `JsText.TrimKeepsNonWhitespace` | api/emails.js:29 | A non-whitespace character is in `trim(s)` exactly when it is in `s`. |
| `JsText.NoUpperSurvivesTrim` | api/emails.js:29 | Trimming a string with no ASCII capital letter leaves none. |
| `JsText.LowerKeepsAt` | api/emails.js:29 | `toLowerCase(s)` contains `@` exactly when `s` does. |
| `JsText.BeforeFirstT` | lib/supabase.js:84 | `split('T')[0]`: a prefix that contains no `T`, followed in the input by a `T` or by nothing. |
| `JsText.NatToString` | api/emails.js:72 | Renders a count as one or more decimal digits, with no leading zero. 0 renders as the single digit `0`. |
| `JsText.NatToStringRoundTrip` | api/emails.js:92 | Reading the rendered digits back gives the original count. |
| `Json.Truthy` | api/emails.js:20 | A present value is falsy exactly when it is `null`, `false`, `0` or `""`. |
| `Json.Property` | api/emails.js:17 | Property lookup on an object's members, the later of two equal keys winning. Its contract is stated by `PropertyIsLast`. |
| `Json.PropertyIsLast` | api/emails.js:17 | Absent exactly when no member has the key. Otherwise it is the value of the last member with that key. |
| `Json.PropertyAt` | api/emails.js:17 | A member that no later member shadows is the value `Property` returns. |
| `Json.Member` | api/emails.js:17 | On an object it is the `Property` of its members. Any other non-null value reads `undefined`. |
| `Http.HeaderOr` | api/emails.js:31-32 | `headers[name] \|\| fallback`: the header when it is present and non-empty, otherwise the fallback. |
| `Http.Response.constructor` | api/emails.js:4 | A response starts with status 200, no headers, nothing sent, not finished. |
| `Http.Response.SetHeader` | api/emails.js:6-8 | Sets one header. Status and body are unchanged. |
| `Http.Response.Status` | api/emails.js:11 | Sets the status only. |
| `Http.Response.End` | api/emails.js:11 | Finishes the response with no body. Status and headers are kept. |
| `Http.Response.SendJson` | api/emails.js:21-24 | Finishes the response with the given JSON body. Status and headers are kept. |
| `Submissions.ToJson` | src/config/supabase.ts:9-16 | A row in JSON, with its columns under their table names. Its fields are stated by `ToJsonFields`. |
| `Submissions.ToJsonFields` | src/config/supabase.ts:9-16 | Every column is found under its table name. `created_at` is present exactly when the row has one. |
| `Supabase.FirstNotNewer` | lib/supabase.js:16 | Every row before the returned position is strictly newer than the new row. The row at that position, if any, is not newer. |
| `Supabase.InsertAtKeepsOrder` | lib/supabase.js:16 | Putting a row at the position `FirstNotNewer` finds keeps a newest-first list newest-first. |
| `Supabase.InsertNewestFirst` | lib/supabase.js:16 | Inserting into a newest-first list keeps it newest-first. The multiset of rows gains exactly the new row. |
| `Supabase.OrderByTimestampDesc` | lib/supabase.js:13-16 | The result is a permutation of the rows, ordered by timestamp, newest first. |
| `Supabase.Persisted` | lib/supabase.js:32-36 | The stored row keeps every sent field. Its `created_at` is always set: to the value sent, or otherwise to the one the insert reply reports. |
| `Supabase.EmailTable.GetEmails` | lib/supabase.js:11-28 | An error from the query is raised with that error. Null data gives `[]`. Otherwise the result is every row of the table, newest first, and a permutation of the table. |
| `Supabase.EmailTable.AddEmail` | lib/supabase.js:30-48 | On success it appends exactly one row and returns that row. On an error it raises the error and leaves the table unchanged. |
| `Supabase.EmailTable.ClearEmails` | lib/supabase.js:50-73 | On success the table is empty and the result is the row count read before the delete, or 0 when that read gave no data. A failed delete raises its error and leaves the table unchanged. |
| `Supabase.CountWhere` | lib/supabase.js:83-88 | `filter(p).length` is at most the length of the list, and 0 when no element satisfies `p`. |
| `Supabase.CountWhereIsIndices` | lib/supabase.js:83-88 | The count equals the number of positions whose element satisfies `p`. |
| `Supabase.GetStats` | lib/supabase.js:75-90 | `total` is the length of the list, and `today` and `week` are each at most `total`. An empty list gives `{0, 0, 0}`. |
| `Supabase.StatsTodayExact` | lib/supabase.js:77-85 | `today` counts exactly the rows whose date part (before the first `T`) equals the date part of now. |
| `Supabase.StatsWeekExact` | lib/supabase.js:78-88 | `week` counts exactly the rows whose timestamp parses to an instant strictly after one week ago. |
| `EmailsApi.WithCors` | api/emails.js:6-8 | The headers gain `Access-Control-Allow-Origin: *`, `-Methods: GET, POST, DELETE, OPTIONS` and `-Headers: Content-Type`. Every other header keeps its name and its value. |
| `EmailsApi.CheckEmailValue` | api/emails.js:20 | Accepted exactly when `email` is a string containing `@`, and the accepted string is the raw value. Every falsy value (missing, `null`, `false`, `0`, `""`) and every `@`-less string is rejected. An array throws exactly when it holds the element `"@"`, and is rejected otherwise. Any other truthy non-string throws. |
| `EmailsApi.CheckEmail` | api/emails.js:17-20 | A null or undefined body throws. Otherwise the request is accepted exactly when the body is an object whose `email` property is a string containing `@`. On an object the outcome is `CheckEmailValue` of its `email` property, so `{}`, `{email:""}` and `{email:"abc"}` are rejected. Any other parsed body (a string, number, boolean or array) has no `email` and is rejected. |
| `EmailsApi.NormalizeEmail` | api/emails.js:29 | Lowercase-then-trim gives an address with no ASCII capital letter and no whitespace at either end. It contains `@` exactly when the raw input did. |
| `EmailsApi.NormalizedIsFixpoint` | api/emails.js:29 | An address already in stored form is unchanged by normalisation. |
| `EmailsApi.NormalizeEmailIdempotent` | api/emails.js:29 | Normalising twice is the same as normalising once. |
| `EmailsApi.ClientIp` | api/emails.js:31 | `x-forwarded-for` if present and non-empty, otherwise `x-real-ip` if present and non-empty, otherwise `unknown`. |
| `EmailsApi.UserAgent` | api/emails.js:32 | `user-agent` if present and non-empty, otherwise `unknown`. |
| `EmailsApi.NewSubmission` | api/emails.js:27-33 | The record sent to the store has the generated id, the request time and the header fallbacks. Its email is `trim(lowercase(raw))`, in stored form and containing `@`. |
| `EmailsApi.AppendKeepsNormalized` | api/emails.js:37 | Appending a row in stored form keeps every stored address in stored form. |
| `EmailsApi.IsDemo` | api/emails.js:64 | True exactly when some row's id starts with `demo-`. |
| `EmailsApi.SavedBody` | api/emails.js:41-47 | The 201 body: `success`, the fixed message, and the saved row's `id`, `email` and `timestamp`, in that order. Its fields are stated by `SavedBodyFields`. |
| `EmailsApi.SavedBodyFields` | api/emails.js:41-47 | `success` is true and `message` is the fixed text. `id`, `email` and `timestamp` are those of the saved row. |
| `EmailsApi.RowsJson` | api/emails.js:68 | The `emails` array has one element per listed row, in order, each the row's JSON form. |
| `EmailsApi.DatabaseStatus` | api/emails.js:64-73 | `demo_mode` exactly when some row's id starts with `demo-`, and `connected` otherwise. |
| `EmailsApi.ListingMessage` | api/emails.js:70-72 | The demo text when some id starts with `demo-`. Otherwise the row count in decimal followed by ` real email submissions collected from database!`. |
| `EmailsApi.ListedBody` | api/emails.js:66-74 | The 200 listing body: `success`, `emails`, `total`, `message`, `database_status`, in that order. Its fields are stated by `ListedBodyFields`. |
| `EmailsApi.ListingMembersFields` | api/emails.js:66-74 | Each member of a listing body (`success`, `emails`, `total`, `message`, `database_status`) reads back as the part it was built from. |
| `EmailsApi.ListedBodyFields` | api/emails.js:66-74 | `success` is true. `emails` holds the listed rows and `total` is their number. `message` is the `ListingMessage` of the rows and `database_status` their `DatabaseStatus`. It rests on `ListingMembersFields`: each of the five members, built from its parts, reads back as that part. |
| `EmailsApi.ClearedBody` | api/emails.js:90-94 | The 200 body of a clear: `success`, a message with the count in decimal, and `deletedCount`. Its fields are stated by `ClearedBodyFields`. |
| `EmailsApi.ClearedBodyFields` | api/emails.js:90-94 | `success` is true and `deletedCount` is the count `clearEmails` returned. `message` is `Deleted <count in decimal> email records from database`. |
| `EmailsApi.InternalErrorBody` | api/emails.js:109-113 | The body of the outer `catch`, carrying the error's message as `details`. Its fields are stated by `FailureBodiesFields`. |
| `EmailsApi.FailureBodiesFields` | api/emails.js:21-113 | The 400, 500 and 405 bodies (`InvalidEmailBody`, `SaveFailedBody`, `FetchFailedBody`, `ClearFailedBody`, `MethodNotAllowedBody`, `InternalErrorBody`) each carry their fixed `error` text. All but the 405 body report `success: false`. The 405 body has no `success`, and the outer `catch` passes the message on as `details`. |
| `EmailsApi.SetCorsHeaders` | api/emails.js:6-8 | Sets the three cross-origin headers. Status and body are untouched. |
| `EmailsApi.Save` | api/emails.js:36-55 | Given the built record: a successful insert answers 201 with the saved row's body, and the table gains that row. A failed insert answers 500 with the fixed error text and leaves the table unchanged. |
| `EmailsApi.Submit` | api/emails.js:15-56 | A body that throws gives 500. An email that is missing, falsy or lacks `@` gives 400 `{error:'Valid email address is required', success:false}` and the table is unchanged. Otherwise it saves the record `NewSubmission` builds, as `Save` states. If every stored address was in stored form before, it still is. |
| `EmailsApi.List` | api/emails.js:58-83 | A failed query answers 500 with the fixed text. Otherwise it answers the listing (`[]` for null data) with the status left at its default. |
| `EmailsApi.Clear` | api/emails.js:85-103 | A failed delete answers 500 and the table is unchanged. Otherwise the table is empty and `deletedCount` is the count read before the delete (0 when that read gave nothing). |
| `EmailsApi.Handler` | api/emails.js:4-115 | Every path sets the three cross-origin headers and finishes the response. OPTIONS gives 200 with no body and no store call. POST, GET and DELETE behave as their branches state. Any other method gives 405 `{error:'Method not allowed'}` with the table unchanged. If every stored address was in stored form before, it still is. |

`EmailsApi.DeleteThenListScenario` stores three rows, sends a DELETE and then a
GET. From `Handler`'s contract alone it shows that the DELETE reports 3 and the
GET lists nothing with `total` 0.

`EmailsApi.InvalidPostScenario` sends a POST with body `{}` and then one with
`{email:"abc"}`. From `Handler`'s contract it shows that both answer 400 with the
validation body and store nothing.

## Left out

- Client construction and the environment variables (lib/supabase.js:2-8, src/config/supabase.ts:1-6). These are process configuration and a foreign library.
- The query builder (`from`, `select`, `order`, `insert`, `single`, `delete`, `gte`). It is replaced by the table and the replies. In particular, the model assumes `.gte('id', 0)` on string ids matches every row. That is library behaviour not visible in the source.
- Identifier generation (`crypto.randomUUID`, `Date.now`, `Math.random`) and the request time (`new Date().toISOString()`). Both are opaque inputs in `Environment`.
- Calendar arithmetic (`setDate(getDate() - 7)`) and ISO parsing. `GetStats` takes the instant one week ago and a parser as parameters. The database's reading of a timestamp is the table's `instant`.
- JsText.ToLowerCase: maps only ASCII capital letters. Locale-free Unicode case mappings, including ones that change the length of a string, are left out.
- Supabase.OrderByTimestampDesc: the client does not say how rows with equal timestamps are ordered. The contract promises only a permutation, newest first. The function keeps ties in table order.
- Console logging, `async`/`await`, and the interleaving of concurrent requests. The count-then-delete race in `clearEmails` is out of scope for the same reason: each call is atomic.
- The outer `catch` (api/emails.js:107-113) is modelled only for the TypeErrors that reading the body can raise. The error's message is the opaque `typeErrorMessage`.
- JSON numbers are integers. A fractional `email` value behaves like a non-zero integer, since it is truthy and has no `includes`.
- `res.json` also sets a `Content-Type` header. That header, and case-insensitive header names, are not modelled.
- Uniqueness of ids is not enforced. It rests on the generated UUID and the table schema, neither of which is in the source.
- The order of a row's columns in JSON follows the `EmailSubmission` interface (src/config/supabase.ts:9-16). The table schema itself is not part of this model.
- Supabase.Persisted: assumes the `emails` table gives `created_at` a default, so an inserted row always comes back with one. It also assumes that `insert(...).select().single()` hands back every sent column unchanged. A column type that reformats its value, such as `timestamptz`, is not modelled, so the 201 body read from the saved row equals one read from the sent record. src/config/supabase.ts:15 marks the field optional, and the table schema is not part of this model.
