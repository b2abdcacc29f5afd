/** The `messages` table as an abstract log of rows, the order in which
    `GET /api/history` reads it back and the lookup of one row by id. */
module MessageLog {
  import opened Common

  /** Largest rowid SQLite can assign (2^63 - 1); with AUTOINCREMENT an
      insert fails once this value has been used. */
  const MaxRowId: int := 0x7FFF_FFFF_FFFF_FFFF

  /** One row: `id INTEGER PRIMARY KEY AUTOINCREMENT`, `role TEXT NOT NULL`,
      `content TEXT NOT NULL`, `timestamp DATETIME DEFAULT CURRENT_TIMESTAMP`
      (whole seconds). */
  datatype Row = Row(id: int, role: Role, content: string, timestamp: int)

  /** The JSON object a row becomes in a response (`SELECT *`: every
      column, the id and the timestamp included). */
  function AsMessage(r: Row): Message
  {
    Message(Some(r.id), r.role, r.content, Some(r.timestamp))
  }

  /** Rows in insertion order have strictly increasing ids. */
  ghost predicate IdsAscending(rows: seq<Row>)
  {
    forall i, j :: 0 <= i < j < |rows| ==> rows[i].id < rows[j].id
  }

  /** With ascending ids, a row is identified by its id. */
  lemma IdsIdentifyRows(rows: seq<Row>, i: int, x: Row)
    requires IdsAscending(rows) && 0 <= i < |rows|
    requires x in rows && x.id == rows[i].id
    ensures x == rows[i]
  {
  }

  /** Non-decreasing timestamps: what `ORDER BY timestamp ASC` guarantees.
      Rows with equal timestamps may come in any order. */
  ghost predicate OrderedByTime(rows: seq<Row>)
  {
    forall i, j :: 0 <= i < j < |rows| ==> rows[i].timestamp <= rows[j].timestamp
  }

  /** No row of `s` is later than `bound`. */
  ghost predicate NotAfter(s: seq<Row>, bound: int)
  {
    forall i :: 0 <= i < |s| ==> s[i].timestamp <= bound
  }

  /** Places `r` into `s` after every row not later than it. */
  function InsertByTime(s: seq<Row>, r: Row): (t: seq<Row>)
    ensures |t| == |s| + 1
  {
    if s == [] || s[|s| - 1].timestamp <= r.timestamp then s + [r]
    else InsertByTime(s[..|s| - 1], r) + [s[|s| - 1]]
  }

  lemma {:induction false} InsertByTimePermutes(s: seq<Row>, r: Row)
    ensures multiset(InsertByTime(s, r)) == multiset(s) + multiset{r}
  {
    if !(s == [] || s[|s| - 1].timestamp <= r.timestamp) {
      var init, last := s[..|s| - 1], s[|s| - 1];
      assert s == init + [last];
      InsertByTimePermutes(init, r);
    }
  }

  lemma {:induction false} InsertByTimeNotAfter(s: seq<Row>, r: Row, bound: int)
    requires NotAfter(s, bound) && r.timestamp <= bound
    ensures NotAfter(InsertByTime(s, r), bound)
  {
    if !(s == [] || s[|s| - 1].timestamp <= r.timestamp) {
      InsertByTimeNotAfter(s[..|s| - 1], r, bound);
    }
  }

  /** Inserting into a time-ordered list keeps it time-ordered. */
  lemma {:induction false} InsertByTimeOrdered(s: seq<Row>, r: Row)
    requires OrderedByTime(s)
    ensures OrderedByTime(InsertByTime(s, r))
  {
    if !(s == [] || s[|s| - 1].timestamp <= r.timestamp) {
      var init, last := s[..|s| - 1], s[|s| - 1];
      InsertByTimeOrdered(init, r);
      InsertByTimeNotAfter(init, r, last.timestamp);
    }
  }

  /** The rows of the table in an order `ORDER BY timestamp ASC` may return
      them (this one keeps insertion order among equal timestamps, which the
      query does not promise). */
  function OrderByTimestamp(rows: seq<Row>): (t: seq<Row>)
    ensures |t| == |rows|
  {
    if rows == [] then []
    else InsertByTime(OrderByTimestamp(rows[..|rows| - 1]), rows[|rows| - 1])
  }

  /** The listing is time-ordered and holds exactly the table's rows. */
  lemma {:induction false} OrderByTimestampSorts(rows: seq<Row>)
    ensures OrderedByTime(OrderByTimestamp(rows))
    ensures multiset(OrderByTimestamp(rows)) == multiset(rows)
  {
    if rows != [] {
      var init, last := rows[..|rows| - 1], rows[|rows| - 1];
      assert rows == init + [last];
      OrderByTimestampSorts(init);
      InsertByTimeOrdered(OrderByTimestamp(init), last);
      InsertByTimePermutes(OrderByTimestamp(init), last);
    }
  }

  /** Two rows with distinct timestamps have only one time-ordered listing. */
  lemma DistinctTimesFixOrder(u: Row, a: Row, t: seq<Row>)
    requires u.timestamp < a.timestamp
    requires OrderedByTime(t) && multiset(t) == multiset([u, a])
    ensures t == [u, a]
  {
  }

  /** `SELECT * FROM messages WHERE id = ?`: the row with that id, if any. */
  function FindById(rows: seq<Row>, id: int): (r: Option<Row>)
    ensures r.Some? ==> r.value in rows && r.value.id == id
    ensures r.None? ==> forall x :: x in rows ==> x.id != id
  {
    if rows == [] then None
    else if rows[0].id == id then Some(rows[0])
    else FindById(rows[1..], id)
  }

  /** Reading back the row just appended, by its id, finds that row. */
  lemma FindLastInserted(rows: seq<Row>)
    requires IdsAscending(rows) && |rows| > 0
    ensures FindById(rows, rows[|rows| - 1].id) == Some(rows[|rows| - 1])
  {
    var found := FindById(rows, rows[|rows| - 1].id);
    assert rows[|rows| - 1] in rows;
    IdsIdentifyRows(rows, |rows| - 1, found.value);
  }

  /** `ORDER BY timestamp` has no tie-break: two rows written in the same
      second may be read back newest first. The listing of a user row and
      its reply stored in one second can put the reply first. */
  lemma TieOrderUnconstrained(content: string, reply: string)
    ensures var u, a := Row(1, User, content, 5), Row(2, Assistant, reply, 5);
      OrderedByTime([a, u]) && multiset([a, u]) == multiset([u, a]) && !IdsAscending([a, u])
  {
  }
}
