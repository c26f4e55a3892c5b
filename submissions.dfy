/** The one entity of the system: an email submission, one row of the `emails` table. */
module Submissions {
  import opened Wrappers
  import opened Json

  /** A stored submission. `createdAt` is the optional `created_at` column, which
      the handler never sends. */
  datatype Submission = Submission(
    id: string,
    email: string,
    timestamp: string,
    ipAddress: string,
    userAgent: string,
    createdAt: Option<string>)

  /** The row as the database client returns it and the handler passes it on in JSON. */
  function ToJson(s: Submission): Json {
    Object([("id", Str(s.id)), ("email", Str(s.email)), ("timestamp", Str(s.timestamp)),
            ("ip_address", Str(s.ipAddress)), ("user_agent", Str(s.userAgent))] +
           (if s.createdAt.Some? then [("created_at", Str(s.createdAt.value))] else []))
  }

  /** The JSON form carries every column under its table name, and `created_at`
      only when the row has one. */
  lemma ToJsonFields(s: Submission)
    ensures ToJson(s).Object?
    ensures Property(ToJson(s).members, "id") == Some(Str(s.id))
    ensures Property(ToJson(s).members, "email") == Some(Str(s.email))
    ensures Property(ToJson(s).members, "timestamp") == Some(Str(s.timestamp))
    ensures Property(ToJson(s).members, "ip_address") == Some(Str(s.ipAddress))
    ensures Property(ToJson(s).members, "user_agent") == Some(Str(s.userAgent))
    ensures Property(ToJson(s).members, "created_at") ==
              if s.createdAt.Some? then Some(Str(s.createdAt.value)) else None
  {
    var members := ToJson(s).members;
    PropertyAt(members, 0);
    PropertyAt(members, 1);
    PropertyAt(members, 2);
    PropertyAt(members, 3);
    PropertyAt(members, 4);
    if s.createdAt.Some? {
      PropertyAt(members, 5);
    } else {
      PropertyIsLast(members, "created_at");
    }
  }
}
