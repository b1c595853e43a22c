/** The radar intake planner (`apps/worker/src/radar-source-intake.ts:67-197, 256-795`): five CSV
    files become proposals, and every row that does not is named by an error. */
module RadarIntake {
  import opened Common
  import opened RadarCsv

  datatype File = SourceRegistry | Candidates | MissingCoverage | SubscriptionLog | RulesMap

  datatype Severity = ERROR | WARNING

  datatype Issue = Issue(severity: Severity, code: string, file: File, row: Option<nat>, field: string)

  /** The JavaScript text operations the planner uses, left open. */
  datatype Text = Text(
    lower: string -> string, firstHttpUrl: string -> Option<string>, number: string -> Option<real>,
    contains: (string, string) -> bool)

  // ---------------------------------------------------------------- columns

  function Column(row: Row, field: string): string {
    Trim(JsSpace, if field in row.values then row.values[field] else "")
  }

  function Optional(row: Row, field: string): Option<string> {
    if Column(row, field) == "" then None else Some(Column(row, field))
  }

  function Member(row: Row, field: string, values: seq<string>): Option<string> {
    if Column(row, field) != "" && Column(row, field) in values then Some(Column(row, field)) else None
  }

  function Boolean(text: Text, row: Row, field: string): Option<bool> {
    var value := text.lower(Column(row, field));
    if value in ["true", "yes", "1", "y"] then Some(true)
    else if value in ["false", "no", "0", "n"] then Some(false)
    else None
  }

  function Score(text: Text, row: Row, field: string): Option<real> {
    var value := Column(row, field);
    if value == "" then None
    else
      match text.number(value)
      case Some(score) => if 0.0 <= score <= 100.0 then Some(score) else None
      case None => None
  }

  // ---------------------------------------------------------------- which rows errors name

  /** The rows of `file` that some error names. */
  function ErrorRows(issues: seq<Issue>, file: File): set<nat> {
    set issue <- issues | issue.severity == ERROR && issue.file == file && issue.row.Some? :: issue.row.value
  }

  /** Issues were added, all of them about one row; `failed` tells whether one of them is an error. */
  ghost predicate Adds(before: seq<Issue>, after: seq<Issue>, file: File, row: nat, failed: bool) {
    && before <= after
    && forall f :: ErrorRows(after, f) == ErrorRows(before, f) + if failed && f == file then {row} else {}
  }

  lemma ErrorRowsAppend(issues: seq<Issue>, issue: Issue, file: File)
    ensures ErrorRows(issues + [issue], file) == ErrorRows(issues, file)
              + if issue.severity == ERROR && issue.file == file && issue.row.Some? then {issue.row.value} else {}
  {
    assert (issues + [issue])[|issues|] == issue;
    assert forall i <- issues :: i in issues + [issue];
  }

  lemma AddsOne(before: seq<Issue>, issue: Issue)
    requires issue.row.Some?
    ensures Adds(before, before + [issue], issue.file, issue.row.value, issue.severity == ERROR)
  {
    forall f {
      ErrorRowsAppend(before, issue, f);
    }
  }

  // ---------------------------------------------------------------- which rows are kept

  /** The rows that become records: complete ones and, where identifiers must differ, only those
      whose identifier no earlier kept row has. */
  function Kept(rows: seq<Row>, complete: Row -> bool, id: Row -> string, unique: bool): seq<Row> {
    if rows == [] then []
    else
      var init := Kept(rows[..|rows| - 1], complete, id, unique);
      if Keeps(init, rows[|rows| - 1], complete, id, unique) then init + [rows[|rows| - 1]] else init
  }

  predicate Keeps(kept: seq<Row>, row: Row, complete: Row -> bool, id: Row -> string, unique: bool) {
    complete(row) && (unique ==> forall other <- kept :: id(other) != id(row))
  }

  function Numbers(rows: seq<Row>): set<nat> {
    set row <- rows :: row.row
  }

  /** A CSV table numbers its data rows from 2. */
  predicate Numbered(rows: seq<Row>) {
    forall i | 0 <= i < |rows| :: rows[i].row == i + 2
  }

  lemma NumbersAppend(rows: seq<Row>, row: Row)
    ensures Numbers(rows + [row]) == Numbers(rows) + {row.row}
  {
    assert (rows + [row])[|rows|] == row;
    assert forall r <- rows :: r in rows + [row];
  }

  /** Kept rows are rows, in the same order. */
  lemma {:induction false} KeptInOrder(rows: seq<Row>, complete: Row -> bool, id: Row -> string, unique: bool)
    requires Numbered(rows)
    ensures var kept := Kept(rows, complete, id, unique);
            && (forall row <- kept :: row in rows)
            && (forall i, j | 0 <= i < j < |kept| :: kept[i].row < kept[j].row)
            && (unique ==> forall i, j | 0 <= i < j < |kept| :: id(kept[i]) != id(kept[j]))
    decreases |rows|
  {
    if rows != [] {
      var init := rows[..|rows| - 1];
      KeptInOrder(init, complete, id, unique);
      assert forall row <- init :: row in rows;
      assert forall row <- init :: row.row < rows[|rows| - 1].row;
      assert forall row <- Kept(init, complete, id, unique) :: row in init;
    }
  }

  /** A row is kept exactly when it is complete and repeats no identifier of the rows kept before it. */
  lemma {:induction false} KeptExactly(rows: seq<Row>, k: nat, complete: Row -> bool, id: Row -> string, unique: bool)
    requires Numbered(rows) && k < |rows|
    ensures rows[k] in Kept(rows, complete, id, unique)
       <==> Keeps(Kept(rows[..k], complete, id, unique), rows[k], complete, id, unique)
    decreases |rows|
  {
    var init, last := rows[..|rows| - 1], rows[|rows| - 1];
    KeptInOrder(init, complete, id, unique);
    if k < |init| {
      KeptExactly(init, k, complete, id, unique);
      assert init[..k] == rows[..k] && rows[k].row != last.row;
    } else {
      assert init == rows[..k];
      assert forall row <- init :: row.row < last.row;
    }
  }

  /** No row is rejected exactly when all rows are kept. */
  lemma {:induction false} NoneRejected(rows: seq<Row>, complete: Row -> bool, id: Row -> string, unique: bool)
    requires Numbered(rows)
    ensures Numbers(rows) - Numbers(Kept(rows, complete, id, unique)) == {} <==> Kept(rows, complete, id, unique) == rows
    ensures |Kept(rows, complete, id, unique)| <= |rows|
    decreases |rows|
  {
    if rows != [] {
      var init, last := rows[..|rows| - 1], rows[|rows| - 1];
      var before, kept := Kept(init, complete, id, unique), Kept(rows, complete, id, unique);
      NoneRejected(init, complete, id, unique);
      KeptInOrder(init, complete, id, unique);
      assert rows == init + [last];
      NumbersAppend(init, last);
      NumbersAppend(before, last);
      assert last.row !in Numbers(init) && last.row !in Numbers(before);
      assert Keeps(before, last, complete, id, unique) ==> Numbers(rows) - Numbers(kept) == Numbers(init) - Numbers(before);
      if !Keeps(before, last, complete, id, unique) {
        assert last.row in Numbers(rows) - Numbers(kept);
      }
    }
  }

  /** One more row of a file was planned. */
  lemma OneMoreRow(rows: seq<Row>, i: nat, complete: Row -> bool, id: Row -> string, unique: bool)
    requires Numbered(rows) && i < |rows|
    ensures var before, after := Kept(rows[..i], complete, id, unique), Kept(rows[..i + 1], complete, id, unique);
            && after == (if Keeps(before, rows[i], complete, id, unique) then before + [rows[i]] else before)
            && Numbers(rows[..i + 1]) - Numbers(after)
            == (Numbers(rows[..i]) - Numbers(before)) + if Keeps(before, rows[i], complete, id, unique) then {} else {rows[i].row}
  {
    assert rows[..i + 1] == rows[..i] + [rows[i]] && rows[..i + 1][..i] == rows[..i];
    var before := Kept(rows[..i], complete, id, unique);
    KeptInOrder(rows[..i], complete, id, unique);
    NumbersAppend(rows[..i], rows[i]);
    NumbersAppend(before, rows[i]);
    assert forall row <- rows[..i] :: row.row < rows[i].row;
    assert rows[i].row !in Numbers(rows[..i]) && rows[i].row !in Numbers(before);
  }

  /** The accounting of one file: the rows errors name are exactly those that were not kept. */
  ghost predicate Accounts(before: seq<Issue>, after: seq<Issue>, file: File, rows: seq<Row>, kept: seq<Row>) {
    && before <= after
    && forall f :: ErrorRows(after, f) == ErrorRows(before, f) + if f == file then Numbers(rows) - Numbers(kept) else {}
  }
}
