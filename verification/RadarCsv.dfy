/** The CSV reader of the radar intake (`apps/worker/src/radar-source-intake.ts:199-254`), and the
    printers of section 2 of RFC 4180 that it undoes. */
module RadarCsv {
  import opened Common

  const BOM: char := '\U{FEFF}'
  const QUOTE: char := '"'

  // ---------------------------------------------------------------- the state machine

  datatype State = State(records: seq<seq<string>>, record: seq<string>, field: string, quoted: bool)

  predicate Blank(record: seq<string>) {
    forall value <- record :: value == ""
  }

  /** `finishRecord`: the record is closed, and kept unless all its values are empty. */
  function Finish(s: State): State {
    var record := s.record + [s.field];
    State(if Blank(record) then s.records else s.records + [record], [], "", s.quoted)
  }

  /** Reading `input` from state `s`; a doubled quote and the CR of a CRLF look one character ahead. */
  function Read(input: string, s: State): State {
    if input == "" then s
    else
      var c, rest := input[0], input[1..];
      if s.quoted then
        if c == QUOTE && rest != "" && rest[0] == QUOTE then Read(rest[1..], s.(field := s.field + [QUOTE]))
        else if c == QUOTE then Read(rest, s.(quoted := false))
        else Read(rest, s.(field := s.field + [c]))
      else if c == QUOTE && s.field == "" then Read(rest, s.(quoted := true))
      else if c == ',' then Read(rest, s.(record := s.record + [s.field], field := ""))
      else if c == '\n' then Read(rest, Finish(s))
      else if c == '\r' then Read(rest, if rest != "" && rest[0] == '\n' then s else Finish(s))
      else Read(rest, s.(field := s.field + [c]))
  }

  function StripBom(content: string): string {
    if content != "" && content[0] == BOM then content[1..] else content
  }

  const START := State([], [], "", false)

  function Close(s: State): Result<seq<seq<string>>> {
    if s.quoted then Err("Unterminated quoted CSV field")
    else Ok((if s.field != "" || s.record != [] then Finish(s) else s).records)
  }

  function Records(content: string): Result<seq<seq<string>>> {
    Close(Read(StripBom(content), START))
  }

  /** The loop of the source, reading in place by index. */
  method ReadRecords(content: string) returns (result: Result<seq<seq<string>>>)
    ensures result == Records(content)
  {
    var input := StripBom(content);
    var s := START;
    var index := 0;
    while index < |input|
      invariant index <= |input|
      invariant Read(input[index..], s) == Read(input, START)
    {
      var c := input[index];
      assert input[index..][1..] == input[index + 1..];
      if s.quoted {
        if c == QUOTE {
          if index + 1 < |input| && input[index + 1] == QUOTE {
            assert input[index + 1..][1..] == input[index + 2..];
            s := s.(field := s.field + [QUOTE]);
            index := index + 1;
          } else {
            s := s.(quoted := false);
          }
        } else {
          s := s.(field := s.field + [c]);
        }
      } else if c == QUOTE && s.field == "" {
        s := s.(quoted := true);
      } else if c == ',' {
        s := s.(record := s.record + [s.field], field := "");
      } else if c == '\n' {
        s := Finish(s);
      } else if c == '\r' {
        if !(index + 1 < |input| && input[index + 1] == '\n') {
          s := Finish(s);
        }
      } else {
        s := s.(field := s.field + [c]);
      }
      index := index + 1;
    }
    if s.quoted { return Err("Unterminated quoted CSV field"); }
    if s.field != "" || s.record != [] { s := Finish(s); }
    result := Ok(s.records);
  }

  // ---------------------------------------------------------------- printing

  /** A value and whether the printer chooses to quote it. */
  datatype Cell = Cell(value: string, quote: bool)

  datatype Ending = LF | CRLF | CR

  datatype Line = Line(cells: seq<Cell>, ending: Ending)
  {
    function Values(): seq<string> {
      seq(|cells|, i requires 0 <= i < |cells| => cells[i].value)
    }
  }

  /** A value that may be printed bare. */
  predicate Bare(value: string) {
    && (forall c <- value :: c != ',' && c != '\n' && c != '\r')
    && (value != "" ==> value[0] != QUOTE && value[0] != BOM)
  }

  function Doubled(value: string): string {
    if value == "" then "" else (if value[0] == QUOTE then [QUOTE, QUOTE] else [value[0]]) + Doubled(value[1..])
  }

  function PrintCell(cell: Cell): string {
    if cell.quote || !Bare(cell.value) then [QUOTE] + Doubled(cell.value) + [QUOTE] else cell.value
  }

  function PrintCells(cells: seq<Cell>): string {
    if cells == [] then ""
    else if |cells| == 1 then PrintCell(cells[0])
    else PrintCell(cells[0]) + "," + PrintCells(cells[1..])
  }

  function PrintEnding(ending: Ending): string {
    match ending
    case LF => "\n"
    case CRLF => "\r\n"
    case CR => "\r"
  }

  /** The document; the last line ends like the others or not at all. */
  function Print(lines: seq<Line>, lastEnds: bool): string {
    if lines == [] then ""
    else
      PrintCells(lines[0].cells)
      + (if |lines| > 1 || lastEnds then PrintEnding(lines[0].ending) else "")
      + Print(lines[1..], lastEnds)
  }

  /** What a document is about: its records, without the all-empty ones. */
  function Contents(lines: seq<Line>): seq<seq<string>> {
    if lines == [] then []
    else (if Blank(lines[0].Values()) then [] else [lines[0].Values()]) + Contents(lines[1..])
  }

  // ---------------------------------------------------------------- reading undoes printing

  lemma ReadInside(c: char, tail: string, s: State)
    requires s.quoted
    ensures Read((if c == QUOTE then [QUOTE, QUOTE] else [c]) + tail, s) == Read(tail, s.(field := s.field + [c]))
  {
    if c == QUOTE {
      assert ([QUOTE, QUOTE] + tail)[1..] == [QUOTE] + tail && ([QUOTE] + tail)[1..] == tail;
    } else {
      assert ([c] + tail)[1..] == tail;
    }
  }

  lemma {:induction false} ReadBody(value: string, tail: string, s: State)
    requires s.quoted
    ensures Read(Doubled(value) + tail, s) == Read(tail, s.(field := s.field + value))
    decreases |value|
  {
    hide Read;
    if value == "" {
      assert Doubled(value) + tail == tail && s.field + value == s.field;
    } else {
      var unit := if value[0] == QUOTE then [QUOTE, QUOTE] else [value[0]];
      assert Doubled(value) + tail == unit + (Doubled(value[1..]) + tail);
      hide Doubled;
      ReadInside(value[0], Doubled(value[1..]) + tail, s);
      ReadBody(value[1..], tail, s.(field := s.field + [value[0]]));
      assert s.field + [value[0]] + value[1..] == s.field + value;
    }
  }

  lemma ReadClosing(rest: string, s: State)
    requires s.quoted && (rest == "" || rest[0] != QUOTE)
    ensures Read([QUOTE] + rest, s) == Read(rest, s.(quoted := false))
  {
    assert ([QUOTE] + rest)[1..] == rest;
  }

  /** Inside quotes, a printed value is read back up to its closing quote. */
  lemma ReadDoubled(value: string, rest: string, s: State)
    requires s.quoted && (rest == "" || rest[0] != QUOTE)
    ensures Read(Doubled(value) + [QUOTE] + rest, s) == Read(rest, s.(field := s.field + value, quoted := false))
  {
    hide Read, Doubled;
    ReadBody(value, [QUOTE] + rest, s);
    ReadClosing(rest, s.(field := s.field + value));
    assert Doubled(value) + [QUOTE] + rest == Doubled(value) + ([QUOTE] + rest);
  }

  /** A bare value is read character by character. */
  lemma {:induction false} ReadBare(value: string, rest: string, s: State)
    requires !s.quoted && (forall c <- value :: c != ',' && c != '\n' && c != '\r')
    requires value != "" && s.field == "" ==> value[0] != QUOTE
    ensures Read(value + rest, s) == Read(rest, s.(field := s.field + value))
    decreases |value|
  {
    if value == "" {
      assert value + rest == rest && s.field + value == s.field;
    } else {
      assert (value + rest)[1..] == value[1..] + rest && value[0] in value;
      assert |s.field + [value[0]]| > 0;
      assert forall c <- value[1..] :: c in value;
      ReadBare(value[1..], rest, s.(field := s.field + [value[0]]));
      assert s.field + [value[0]] + value[1..] == s.field + value;
    }
  }

  lemma ReadCell(cell: Cell, rest: string, s: State)
    requires !s.quoted && s.field == "" && (rest == "" || rest[0] != QUOTE)
    ensures Read(PrintCell(cell) + rest, s) == Read(rest, s.(field := cell.value))
  {
    if cell.quote || !Bare(cell.value) {
      var tail := Doubled(cell.value) + [QUOTE] + rest;
      assert PrintCell(cell) + rest == [QUOTE] + tail && ([QUOTE] + tail)[1..] == tail;
      assert "" + cell.value == cell.value;
      ReadDoubled(cell.value, rest, s.(quoted := true));
    } else {
      ReadBare(cell.value, rest, s);
      assert "" + cell.value == cell.value;
    }
  }

  /** A printed record is read back whole, its last value still open. */
  lemma {:induction false} ReadCells(cells: seq<Cell>, rest: string, s: State)
    requires cells != [] && !s.quoted && s.field == "" && (rest == "" || rest[0] != QUOTE)
    ensures Read(PrintCells(cells) + rest, s)
         == Read(rest, s.(record := s.record + Line(cells, LF).Values()[..|cells| - 1], field := cells[|cells| - 1].value))
    decreases |cells|
  {
    hide Read, PrintCell;
    var first := cells[0];
    if |cells| == 1 {
      ReadCell(first, rest, s);
      assert s.record + Line(cells, LF).Values()[..0] == s.record;
    } else {
      var more := cells[1..];
      var tail := PrintCells(more) + rest;
      assert PrintCells(cells) + rest == PrintCell(first) + ("," + tail);
      hide PrintCells;
      ReadCell(first, "," + tail, s);
      ReadComma(tail, s.(field := first.value));
      var next := s.(record := s.record + [first.value]);
      assert Read(PrintCells(cells) + rest, s) == Read(tail, next);
      ReadCells(more, rest, next);
      ValuesOfTail(cells, s.record);
      assert Line(more, LF).Values()[..|more| - 1] == Line(more, LF).Values()[..|cells| - 2];
    }
  }

  lemma ReadComma(tail: string, s: State)
    requires !s.quoted
    ensures Read("," + tail, s) == Read(tail, s.(record := s.record + [s.field], field := ""))
  {
    assert ("," + tail)[1..] == tail;
  }

  lemma ValuesOfTail(cells: seq<Cell>, record: seq<string>)
    requires |cells| > 1
    ensures record + [cells[0].value] + Line(cells[1..], LF).Values()[..|cells| - 2] == record + Line(cells, LF).Values()[..|cells| - 1]
    ensures cells[1..][|cells| - 2].value == cells[|cells| - 1].value
  {
  }

  /** Every ending closes the record; where a lone CR meets an LF, the two together do. */
  lemma ReadEnding(ending: Ending, rest: string, s: State)
    requires !s.quoted
    ensures Read(PrintEnding(ending) + rest, s) == Read(rest, Finish(s))
  {
    var text := PrintEnding(ending) + rest;
    match ending
    case LF => assert text[1..] == rest;
    case CRLF => assert text[1..] == "\n" + rest && ("\n" + rest)[1..] == rest;
    case CR =>
      assert text[1..] == rest;
      if rest != "" && rest[0] == '\n' {
        assert Finish(Finish(s)) == Finish(s);
      }
  }

  /** After a line's cells, before its ending: the last value is still open. */
  function Open(values: seq<string>, records: seq<seq<string>>): State {
    if values == [] then State(records, [], "", false)
    else State(records, values[..|values| - 1], values[|values| - 1], false)
  }

  lemma FinishOpen(values: seq<string>, records: seq<seq<string>>)
    ensures Finish(Open(values, records)) == START.(records := if Blank(values) then records else records + [values])
  {
    if values != [] {
      assert values[..|values| - 1] + [values[|values| - 1]] == values;
    }
  }

  lemma ReadLine(line: Line, tail: string, records: seq<seq<string>>)
    requires tail == "" || tail[0] != QUOTE || line.cells == []
    ensures Read(PrintCells(line.cells) + tail, START.(records := records)) == Read(tail, Open(line.Values(), records))
  {
    if line.cells == [] {
      assert PrintCells(line.cells) + tail == tail;
    } else {
      ReadCells(line.cells, tail, START.(records := records));
      var values := line.Values();
      assert Line(line.cells, LF).Values() == values;
      assert [] + values[..|values| - 1] == values[..|values| - 1];
    }
  }

  /** At the end of the document an open record is closed. */
  lemma CloseOpen(values: seq<string>, records: seq<seq<string>>)
    ensures Close(Open(values, records)) == Ok(if Blank(values) then records else records + [values])
  {
    FinishOpen(values, records);
  }

  function Keep(records: seq<seq<string>>, values: seq<string>): seq<seq<string>> {
    if Blank(values) then records else records + [values]
  }

  /** A line with its ending is one record more, unless it is blank. */
  lemma ReadWholeLine(line: Line, rest: string, records: seq<seq<string>>)
    ensures Read(PrintCells(line.cells) + (PrintEnding(line.ending) + rest), START.(records := records))
         == Read(rest, START.(records := Keep(records, line.Values())))
  {
    hide Read, PrintCells, Finish, Blank, Line.Values;
    EndingIsNoQuote(line.ending, rest);
    ReadLine(line, PrintEnding(line.ending) + rest, records);
    OpenIsUnquoted(line.Values(), records);
    ReadEnding(line.ending, rest, Open(line.Values(), records));
    FinishOpen(line.Values(), records);
  }

  /** So is a last line without an ending. */
  lemma ReadLastLine(line: Line, records: seq<seq<string>>)
    ensures Close(Read(PrintCells(line.cells), START.(records := records))) == Ok(Keep(records, line.Values()))
  {
    hide Read, PrintCells, Finish, Blank, Line.Values, Close;
    assert PrintCells(line.cells) + "" == PrintCells(line.cells);
    ReadLine(line, "", records);
    ReadNothing(Open(line.Values(), records));
    CloseOpen(line.Values(), records);
  }

  lemma {:induction false} ReadLines(lines: seq<Line>, lastEnds: bool, records: seq<seq<string>>)
    ensures Close(Read(Print(lines, lastEnds), START.(records := records))) == Ok(records + Contents(lines))
    decreases |lines|
  {
    if lines == [] {
      assert records + Contents(lines) == records;
    } else {
      hide Read, Print, PrintCells, PrintEnding, Contents, Blank, Close, Keep, Line.Values;
      var line, rest := lines[0], Print(lines[1..], lastEnds);
      ContentsFirst(lines, records);
      PrintFirst(lines, lastEnds);
      if |lines| > 1 || lastEnds {
        ReadWholeLine(line, rest, records);
        ReadLines(lines[1..], lastEnds, Keep(records, line.Values()));
      } else {
        ContentsFirst([], Keep(records, line.Values()));
        assert lines[1..] == [];
        ReadLastLine(line, records);
      }
    }
  }

  lemma ContentsFirst(lines: seq<Line>, records: seq<seq<string>>)
    ensures records + Contents(lines) ==
            if lines == [] then records else Keep(records, lines[0].Values()) + Contents(lines[1..])
  {
    hide Blank, Line.Values;
  }

  lemma PrintFirst(lines: seq<Line>, lastEnds: bool)
    requires lines != []
    ensures Print(lines, lastEnds) ==
            if |lines| > 1 || lastEnds then PrintCells(lines[0].cells) + (PrintEnding(lines[0].ending) + Print(lines[1..], lastEnds))
            else PrintCells(lines[0].cells)
  {
    hide PrintCells, PrintEnding;
  }

  lemma ReadNothing(s: State)
    ensures Read("", s) == s
  {
  }

  lemma OpenIsUnquoted(values: seq<string>, records: seq<seq<string>>)
    ensures !Open(values, records).quoted
  {
  }

  lemma EndingIsNoQuote(ending: Ending, rest: string)
    ensures var text := PrintEnding(ending) + rest; text != "" && text[0] != QUOTE
  {
  }

  /** No printed document starts with a byte-order mark. */
  lemma {:induction false} PrintHasNoBom(lines: seq<Line>, lastEnds: bool)
    ensures StripBom(Print(lines, lastEnds)) == Print(lines, lastEnds)
    decreases |lines|
  {
    if lines != [] {
      var line := lines[0];
      if |lines| == 1 {
        assert Print(lines[1..], lastEnds) == "";
      }
      if line.cells != [] {
        var text := PrintCell(line.cells[0]);
        assert text != "" ==> text[0] != BOM && PrintCells(line.cells)[0] == text[0];
        assert text == "" && |line.cells| > 1 ==> PrintCells(line.cells)[0] == ',';
      }
      if PrintCells(line.cells) == "" && |lines| > 1 {
        assert Print(lines, lastEnds)[0] == PrintEnding(line.ending)[0];
      }
    }
  }

  /** Reading undoes printing, for every table, every choice of quotes and every mix of line endings,
      with and without a leading byte-order mark; only all-empty records are lost. */
  lemma ReadUndoesPrint(lines: seq<Line>, lastEnds: bool)
    ensures Records(Print(lines, lastEnds)) == Ok(Contents(lines))
    ensures Records([BOM] + Print(lines, lastEnds)) == Ok(Contents(lines))
  {
    PrintHasNoBom(lines, lastEnds);
    ReadLines(lines, lastEnds, []);
    assert [] + Contents(lines) == Contents(lines);
    assert ([BOM] + Print(lines, lastEnds))[1..] == Print(lines, lastEnds);
  }

  /** Tables without an all-empty record come back unchanged. */
  lemma {:induction false} NothingLost(lines: seq<Line>)
    requires forall line <- lines :: !Blank(line.Values())
    ensures |Contents(lines)| == |lines| && forall i | 0 <= i < |lines| :: Contents(lines)[i] == lines[i].Values()
  {
    if lines != [] {
      NothingLost(lines[1..]);
    }
  }

  /** Why a bare value must not start with a byte-order mark: it is taken for the document's own. */
  lemma BomMustBeQuoted()
    ensures Records([BOM, 'a']) == Ok([["a"]]) && Records([QUOTE, BOM, 'a', QUOTE]) == Ok([[[BOM, 'a']]])
  {
    var cell := Cell([BOM, 'a'], true);
    var line := Line([cell], LF);
    ReadUndoesPrint([line], false);
    assert line.Values() == [[BOM, 'a']];
    assert Doubled([BOM, 'a']) == [BOM] + Doubled("a") == [BOM] + ("a" + Doubled(""));
    assert Print([line], false) == [QUOTE, BOM, 'a', QUOTE];
    assert line.Values()[0] in line.Values() && "a" in ["a"];
    assert Contents([line]) == [line.Values()] + Contents([]) == [line.Values()];
    assert [BOM, 'a'][1..] == "a" && "a" + "" == "a";
    ReadBare("a", "", START);
    assert [] + ["a"] == ["a"] && [] + [["a"]] == [["a"]];
    assert START.field + "a" == "a" && Close(START.(field := "a")) == Ok([["a"]]);
  }

  // ---------------------------------------------------------------- rows by header

  datatype Row = Row(row: nat, values: map<string, string>)

  datatype Csv = Csv(headers: seq<string>, rows: seq<Row>)

  /** `Object.fromEntries`: a later column of the same name wins, a missing value is empty. */
  function Values(headers: seq<string>, record: seq<string>): map<string, string> {
    if headers == [] then map[]
    else
      var last := |headers| - 1;
      Values(headers[..last], record)[headers[last] := if last < |record| then record[last] else ""]
  }

  function TrimAll(record: seq<string>): seq<string> {
    seq(|record|, i requires 0 <= i < |record| => Trim(JsSpace, record[i]))
  }

  function Table(records: seq<seq<string>>): Csv {
    if records == [] then Csv([], [])
    else
      var headers := TrimAll(records[0]);
      Csv(headers, seq(|records| - 1, i requires 0 <= i < |records| - 1 => Row(i + 2, Values(headers, records[i + 1]))))
  }

  /** What `parseRadarCsv` returns. */
  function Parsed(content: string): Result<Csv> {
    match Records(content)
    case Ok(records) => Ok(Table(records))
    case Err(e) => Err(e)
  }

  /** `parseRadarCsv` */
  method ParseCsv(content: string) returns (result: Result<Csv>)
    ensures result == Parsed(content)
    ensures result.Ok? <==> Records(content).Ok?
    ensures result.Ok? ==> IsTable(result.value, Records(content).value)
  {
    var records := ReadRecords(content);
    match records
    case Ok(list) =>
      TableIsTable(list);
      result := Ok(Table(list));
    case Err(e) => result := Err(e);
  }

  ghost predicate LastOfItsName(headers: seq<string>, column: nat) {
    column < |headers| && forall later | column < later < |headers| :: headers[later] != headers[column]
  }

  /** The first record names the columns, trimmed; every other record is a row, numbered from two on, that holds under
      each name what it has in the last column of that name, or nothing if it is too short. */
  ghost predicate IsTable(csv: Csv, records: seq<seq<string>>) {
    if records == [] then csv.headers == [] && csv.rows == []
    else
      && |csv.headers| == |records[0]| && |csv.rows| == |records| - 1
      && (forall c | 0 <= c < |csv.headers| :: csv.headers[c] == Trim(JsSpace, records[0][c]))
      && forall k | 0 <= k < |csv.rows| :: IsRow(csv.rows[k], csv.headers, k, records[k + 1])
  }

  ghost predicate IsRow(row: Row, headers: seq<string>, k: nat, record: seq<string>) {
    && row.row == k + 2
    && (forall name :: name in row.values <==> name in headers)
    && forall c | 0 <= c < |headers| && LastOfItsName(headers, c) ::
         row.values[headers[c]] == if c < |record| then record[c] else ""
  }

  lemma TableIsTable(records: seq<seq<string>>)
    ensures IsTable(Table(records), records)
  {
    if records != [] {
      var csv := Table(records);
      forall k | 0 <= k < |csv.rows| ensures IsRow(csv.rows[k], csv.headers, k, records[k + 1]) {
        NamesOfRow(csv.headers, records[k + 1]);
        forall c | 0 <= c < |csv.headers| && LastOfItsName(csv.headers, c)
          ensures csv.rows[k].values[csv.headers[c]] == if c < |records[k + 1]| then records[k + 1][c] else ""
        {
          ValueUnderHeader(csv.headers, records[k + 1], c);
        }
      }
    }
  }

  lemma {:induction false} NamesOfRow(headers: seq<string>, record: seq<string>)
    ensures forall name :: name in Values(headers, record) <==> name in headers
    decreases |headers|
  {
    if headers != [] {
      var last := |headers| - 1;
      NamesOfRow(headers[..last], record);
      assert headers == headers[..last] + [headers[last]];
    }
  }

  /** Nothing else is such a table: names, numbers and values are all determined. */
  lemma TableIsUnique(a: Csv, b: Csv, records: seq<seq<string>>)
    requires IsTable(a, records) && IsTable(b, records)
    ensures a == b
  {
    if records != [] {
      assert a.headers == b.headers;
      forall k | 0 <= k < |a.rows| ensures a.rows[k] == b.rows[k] {
        var x, y := a.rows[k], b.rows[k];
        assert IsRow(x, a.headers, k, records[k + 1]) && IsRow(y, a.headers, k, records[k + 1]);
        assert x.values.Keys == y.values.Keys;
        forall name | name in x.values ensures x.values[name] == y.values[name] {
          var c := LastColumn(a.headers, name);
        }
      }
    }
  }

  lemma {:induction false} LastColumn(headers: seq<string>, name: string) returns (c: nat)
    requires name in headers
    ensures LastOfItsName(headers, c) && headers[c] == name
    decreases |headers|
  {
    c := |headers| - 1;
    if headers[c] != name {
      assert headers == headers[..c] + [headers[c]];
      c := LastColumn(headers[..c], name);
    }
  }

  /** The values of a table to be printed, line by line. */
  function Grid(lines: seq<Line>): seq<seq<string>> {
    seq(|lines|, i requires 0 <= i < |lines| => lines[i].Values())
  }

  /** From the printed table to the rows: whatever is quoted and however lines end, the rows read are those of the table
      that was printed, with and without a leading byte-order mark. */
  lemma ParseUndoesPrint(lines: seq<Line>, lastEnds: bool)
    requires forall line <- lines :: !Blank(line.Values())
    ensures Parsed(Print(lines, lastEnds)).Ok? && IsTable(Parsed(Print(lines, lastEnds)).value, Grid(lines))
    ensures Parsed([BOM] + Print(lines, lastEnds)) == Parsed(Print(lines, lastEnds))
  {
    ReadUndoesPrint(lines, lastEnds);
    NothingLost(lines);
    hide Records, Print, Table, Blank, Line.Values, IsTable;
    assert Contents(lines) == Grid(lines);
    TableIsTable(Grid(lines));
  }

  /** A row holds under each header the value of the last column with that name. */
  lemma {:induction false} ValueUnderHeader(headers: seq<string>, record: seq<string>, column: nat)
    requires column < |headers| && forall later | column < later < |headers| :: headers[later] != headers[column]
    ensures headers[column] in Values(headers, record)
    ensures Values(headers, record)[headers[column]] == if column < |record| then record[column] else ""
    decreases |headers|
  {
    if column < |headers| - 1 {
      ValueUnderHeader(headers[..|headers| - 1], record, column);
    }
  }
}
