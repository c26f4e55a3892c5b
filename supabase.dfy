/**
 * The storage accessor: list, insert and delete-all over the hosted `emails`
 * table, and the statistics computed over a list of rows. The table is an
 * object holding a sequence of rows; each database round trip is one method
 * call that either succeeds or reports an error given to it as a reply.
 */
module Supabase {
  import opened Wrappers
  import opened JsText
  import opened Submissions

  /** An error object reported by the database client. */
  datatype DbError = DbError(message: string)

  /** What a `select` query yields: the rows (`data` is the table's rows),
      `data` null without an error, or an error. */
  datatype ReadReply = Rows | NoRows | ReadFailed(error: DbError)

  /** What `insert(...).select().single()` yields: the inserted row, completed with
      a `created_at` value (the model assumes the table supplies a default), or an error (nothing is inserted). */
  datatype InsertReply = Inserted(createdAt: string) | InsertFailed(error: DbError)

  /** What the `delete` query yields. */
  datatype DeleteReply = Deleted | DeleteFailed(error: DbError)

  /** Ordering by `timestamp`, newest first: `instant` is how the database reads a timestamp. */
  ghost predicate NewestFirst(rows: seq<Submission>, instant: string -> int) {
    forall i, j :: 0 <= i < j < |rows| ==> instant(rows[j].timestamp) <= instant(rows[i].timestamp)
  }

  /** The position of the first row that is not newer than `x`. */
  function FirstNotNewer(x: Submission, rows: seq<Submission>, instant: string -> int): (k: nat)
    ensures k <= |rows|
    ensures forall i :: 0 <= i < k ==> instant(x.timestamp) < instant(rows[i].timestamp)
    ensures k < |rows| ==> instant(rows[k].timestamp) <= instant(x.timestamp)
  {
    if rows == [] || instant(rows[0].timestamp) <= instant(x.timestamp) then 0
    else 1 + FirstNotNewer(x, rows[1..], instant)
  }

  /** Placing `x` at a position where everything before is newer and everything after
      is not newer keeps a newest-first list newest-first. */
  lemma InsertAtKeepsOrder(x: Submission, rows: seq<Submission>, k: nat, instant: string -> int)
    requires NewestFirst(rows, instant) && k <= |rows|
    requires forall i :: 0 <= i < k ==> instant(x.timestamp) < instant(rows[i].timestamp)
    requires k < |rows| ==> instant(rows[k].timestamp) <= instant(x.timestamp)
    ensures NewestFirst(rows[..k] + [x] + rows[k..], instant)
  {
    var r := rows[..k] + [x] + rows[k..];
    forall i, j | 0 <= i < j < |r| ensures instant(r[j].timestamp) <= instant(r[i].timestamp) {
      if j < k {
        assert r[i] == rows[i] && r[j] == rows[j];
      } else if j == k {
        assert r[i] == rows[i] && r[j] == x;
      } else if i < k {
        assert r[i] == rows[i] && r[j] == rows[j - 1];
      } else if i == k {
        assert r[i] == x && r[j] == rows[j - 1];
        assert instant(rows[j - 1].timestamp) <= instant(rows[k].timestamp);
      } else {
        assert r[i] == rows[i - 1] && r[j] == rows[j - 1];
      }
    }
  }

  /** Puts `x` in front of the first row that is not newer than it. */
  function InsertNewestFirst(x: Submission, rows: seq<Submission>, instant: string -> int): (r: seq<Submission>)
    requires NewestFirst(rows, instant)
    ensures NewestFirst(r, instant)
    ensures multiset(r) == multiset(rows) + multiset{x}
  {
    var k := FirstNotNewer(x, rows, instant);
    InsertAtKeepsOrder(x, rows, k, instant);
    assert rows == rows[..k] + rows[k..];
    rows[..k] + [x] + rows[k..]
  }

  /** `.order('timestamp', { ascending: false })`: the same rows, newest first. Rows
      with equal timestamps come back in an order the client does not promise;
      this one keeps the order they had. */
  function OrderByTimestampDesc(rows: seq<Submission>, instant: string -> int): (r: seq<Submission>)
    ensures NewestFirst(r, instant)
    ensures multiset(r) == multiset(rows)
    ensures |r| == |rows|
  {
    if rows == [] then []
    else
      assert rows == [rows[0]] + rows[1..];
      InsertNewestFirst(rows[0], OrderByTimestampDesc(rows[1..], instant), instant)
  }

  /** The row the database stores for `data`: `created_at` gets its default when it is not sent. */
  function Persisted(data: Submission, createdAt: string): (row: Submission)
    ensures row.id == data.id && row.email == data.email && row.timestamp == data.timestamp
    ensures row.ipAddress == data.ipAddress && row.userAgent == data.userAgent
    ensures row.createdAt.Some?
    ensures data.createdAt.None? ==> row.createdAt == Some(createdAt)
    ensures data.createdAt.Some? ==> row == data
  {
    if data.createdAt.Some? then data else data.(createdAt := Some(createdAt))
  }

  /** The hosted `emails` table. */
  class EmailTable {
    var rows: seq<Submission>
    const instant: string -> int

    constructor (instant: string -> int)
      ensures rows == [] && this.instant == instant
    {
      rows := [];
      this.instant := instant;
    }

    /** `getEmails()`: every row, newest first, or `[]` when the query gives no data;
        an error from the query is raised. */
    method GetEmails(reply: ReadReply) returns (r: Result<seq<Submission>, DbError>)
      ensures reply.ReadFailed? <==> r.Err?
      ensures reply.ReadFailed? ==> r.error == reply.error
      ensures reply.NoRows? ==> r == Ok([])
      ensures reply.Rows? ==> r.Ok? && multiset(r.value) == multiset(rows) && NewestFirst(r.value, instant)
      ensures reply.Rows? ==> r == Ok(OrderByTimestampDesc(rows, instant))
    {
      match reply {
        case ReadFailed(e) =>
          r := Err(e);
        case NoRows =>
          r := Ok([]);
        case Rows =>
          r := Ok(OrderByTimestampDesc(rows, instant));
      }
    }

    /** `addEmail(data)`: inserts one row and returns the stored row, or raises the
        error and inserts nothing. */
    method AddEmail(data: Submission, reply: InsertReply) returns (r: Result<Submission, DbError>)
      modifies this
      ensures reply.InsertFailed? ==> r == Err(reply.error) && rows == old(rows)
      ensures reply.Inserted? ==> r == Ok(Persisted(data, reply.createdAt)) && rows == old(rows) + [r.value]
    {
      match reply {
        case InsertFailed(e) =>
          r := Err(e);
        case Inserted(createdAt) =>
          var row := Persisted(data, createdAt);
          rows := rows + [row];
          r := Ok(row);
      }
    }

    /** `clearEmails()`: counts the rows (a failed count reads as no data, hence 0),
        then deletes them all and returns that earlier count; a failed delete is
        raised and leaves the table as it was. */
    method ClearEmails(countReply: ReadReply, deleteReply: DeleteReply) returns (r: Result<nat, DbError>)
      modifies this
      ensures deleteReply.DeleteFailed? ==> r == Err(deleteReply.error) && rows == old(rows)
      ensures deleteReply.Deleted? ==> r == Ok(if countReply.Rows? then |old(rows)| else 0) && rows == []
    {
      var count := if countReply.Rows? then |rows| else 0;
      match deleteReply {
        case DeleteFailed(e) =>
          r := Err(e);
        case Deleted =>
          rows := [];
          r := Ok(count);
      }
    }
  }

  /** Number of elements of `s` satisfying `p`, which is `s.filter(p).length`. */
  function CountWhere<T>(s: seq<T>, p: T -> bool): (n: nat)
    ensures n <= |s|
    ensures (forall i :: 0 <= i < |s| ==> !p(s[i])) ==> n == 0
  {
    if s == [] then 0 else CountWhere(s[..|s| - 1], p) + (if p(s[|s| - 1]) then 1 else 0)
  }

  /** The positions of `s` whose element satisfies `p`. */
  ghost function IndicesWhere<T>(s: seq<T>, p: T -> bool): set<int> {
    set i | 0 <= i < |s| && p(s[i])
  }

  lemma {:induction false} CountWhereIsIndices<T>(s: seq<T>, p: T -> bool)
    ensures CountWhere(s, p) == |IndicesWhere(s, p)|
  {
    if s != [] {
      var n := |s| - 1;
      CountWhereIsIndices(s[..n], p);
      assert IndicesWhere(s, p) == IndicesWhere(s[..n], p) + (if p(s[n]) then {n} else {});
    }
  }

  datatype Stats = Stats(total: nat, today: nat, week: nat)

  /** Dated today: the date part of the timestamp is today's date part. */
  predicate DatedToday(row: Submission, now: string) {
    BeforeFirstT(row.timestamp) == BeforeFirstT(now)
  }

  /** Within the week: the timestamp parses to an instant after `weekAgo`
      (an unparsable timestamp is an invalid date, which compares as false). */
  predicate WithinWeek(row: Submission, weekAgo: int, parseDate: string -> Option<int>) {
    parseDate(row.timestamp).Some? && parseDate(row.timestamp).value > weekAgo
  }

  /** `getStats(emails)`: `now` is the current time as an ISO string, `weekAgo` the
      instant seven days before it, `parseDate` what `new Date(...)` makes of a timestamp. */
  function GetStats(emails: seq<Submission>, now: string, weekAgo: int, parseDate: string -> Option<int>): (st: Stats)
    ensures st.total == |emails|
    ensures st.today <= st.total && st.week <= st.total
    ensures emails == [] ==> st == Stats(0, 0, 0)
  {
    Stats(|emails|,
          CountWhere(emails, (row: Submission) => DatedToday(row, now)),
          CountWhere(emails, (row: Submission) => WithinWeek(row, weekAgo, parseDate)))
  }

  /** `today` counts exactly the rows whose date part is today's. */
  lemma StatsTodayExact(emails: seq<Submission>, now: string, weekAgo: int, parseDate: string -> Option<int>)
    ensures GetStats(emails, now, weekAgo, parseDate).today ==
            |set i | 0 <= i < |emails| && DatedToday(emails[i], now)|
  {
    var p := (row: Submission) => DatedToday(row, now);
    CountWhereIsIndices(emails, p);
    assert IndicesWhere(emails, p) == set i | 0 <= i < |emails| && DatedToday(emails[i], now);
  }

  /** `week` counts exactly the rows dated strictly after `weekAgo`. */
  lemma StatsWeekExact(emails: seq<Submission>, now: string, weekAgo: int, parseDate: string -> Option<int>)
    ensures GetStats(emails, now, weekAgo, parseDate).week ==
            |set i | 0 <= i < |emails| && WithinWeek(emails[i], weekAgo, parseDate)|
  {
    var p := (row: Submission) => WithinWeek(row, weekAgo, parseDate);
    CountWhereIsIndices(emails, p);
    assert IndicesWhere(emails, p) == set i | 0 <= i < |emails| && WithinWeek(emails[i], weekAgo, parseDate);
  }
}
