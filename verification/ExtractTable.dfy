/** Markdown tables (`workers/document_extraction/extract.py:102-119`) and the reader they can be
    given back to, with pipes escaped as in section 4.10 of GitHub Flavored Markdown. */
module ExtractTable {
  import opened Common
  import opened ExtractText

  // ---------------------------------------------------------------- printing

  /** `\s+` becomes one space; `inside` says that white space precedes `s`. */
  function Squeeze(s: string, inside: bool): string {
    if s == "" then ""
    else if !PySpace(s[0]) then [s[0]] + Squeeze(s[1..], false)
    else if inside then Squeeze(s[1..], true)
    else " " + Squeeze(s[1..], true)
  }

  /** A cell's text with its white space normalised. */
  function CellText(value: string): string {
    Squeeze(Trim(PySpace, value), false)
  }

  function EscapePipes(s: string): string {
    if s == "" then "" else (if s[0] == '|' then "\\|" else [s[0]]) + EscapePipes(s[1..])
  }

  function EscapeCell(value: string): string {
    EscapePipes(CellText(value))
  }

  function Join(parts: seq<string>, separator: string): string {
    if parts == [] then ""
    else if |parts| == 1 then parts[0]
    else parts[0] + separator + Join(parts[1..], separator)
  }

  function TableLine(cells: seq<string>): string {
    "| " + Join(cells, " | ") + " |"
  }

  function Width(rows: seq<seq<string>>): nat {
    if rows == [] then 0
    else if |rows[0]| > Width(rows[1..]) then |rows[0]| else Width(rows[1..])
  }

  function Pad(row: seq<string>, width: nat): seq<string> {
    row + seq(if width > |row| then width - |row| else 0, _ => "")
  }

  function EscapeRow(row: seq<string>, width: nat): seq<string> {
    seq(|Pad(row, width)|, i requires 0 <= i < |Pad(row, width)| => EscapeCell(Pad(row, width)[i]))
  }

  function BodyLines(rows: seq<seq<string>>, width: nat): seq<string> {
    seq(|rows|, i requires 0 <= i < |rows| => TableLine(EscapeRow(rows[i], width)))
  }

  /** The lines of the table: the header, the rule, the other rows. */
  function TableLines(rows: seq<seq<string>>): seq<string>
    requires rows != []
  {
    var width := Width(rows);
    [TableLine(EscapeRow(rows[0], width)), TableLine(seq(width, _ => "---"))] + BodyLines(rows[1..], width)
  }

  /** `_markdown_table` */
  function MarkdownTable(rows: seq<seq<string>>): string {
    if rows == [] then "" else Join(TableLines(rows), "\n")
  }

  /** The source's loop over the body rows. */
  method BuildLines(rows: seq<seq<string>>) returns (lines: seq<string>)
    requires rows != []
    ensures lines == TableLines(rows)
  {
    hide TableLine, EscapeRow;
    var width := Width(rows);
    lines := [TableLine(EscapeRow(rows[0], width)), TableLine(seq(width, _ => "---"))];
    for i := 1 to |rows|
      invariant lines == [TableLine(EscapeRow(rows[0], width)), TableLine(seq(width, _ => "---"))] + BodyLines(rows[1..i], width)
    {
      lines := lines + [TableLine(EscapeRow(rows[i], width))];
      assert BodyLines(rows[1..i + 1], width) == BodyLines(rows[1..i], width) + [TableLine(EscapeRow(rows[i], width))];
    }
    assert rows[1..|rows|] == rows[1..];
  }

  // ---------------------------------------------------------------- the words of a cell

  /** The words of a text that continues `word`: what stands between white space. */
  function Words(s: string, word: string): seq<string> {
    if s == "" then (if word == "" then [] else [word])
    else if PySpace(s[0]) then (if word == "" then [] else [word]) + Words(s[1..], "")
    else Words(s[1..], word + [s[0]])
  }

  lemma {:induction false} SqueezeKeepsWords(s: string, inside: bool, word: string)
    requires inside ==> word == ""
    ensures Words(Squeeze(s, inside), word) == Words(s, word)
    decreases |s|
  {
    if s != "" {
      var rest := s[1..];
      if !PySpace(s[0]) {
        SqueezeKeepsWords(rest, false, word + [s[0]]);
        assert ([s[0]] + Squeeze(rest, false))[1..] == Squeeze(rest, false);
      } else {
        SqueezeKeepsWords(rest, true, "");
        assert PySpace(' ') && (" " + Squeeze(rest, true))[1..] == Squeeze(rest, true);
      }
    }
  }

  lemma {:induction false} LeadingSpace(s: string, i: nat)
    requires i <= |s| && forall k | 0 <= k < i :: PySpace(s[k])
    ensures Words(s, "") == Words(s[i..], "")
    decreases i
  {
    if i > 0 {
      LeadingSpace(s[1..], i - 1);
      assert s[1..][i - 1..] == s[i..];
    } else {
      assert s[0..] == s;
    }
  }

  lemma {:induction false} TrailingSpace(s: string, j: nat, word: string)
    requires j <= |s| && forall k | j <= k < |s| :: PySpace(s[k])
    ensures Words(s, word) == Words(s[..j], word)
    decreases |s|
  {
    if s != "" {
      if j > 0 {
        var next := if PySpace(s[0]) then "" else word + [s[0]];
        TrailingSpace(s[1..], j - 1, next);
        assert s[..j][1..] == s[1..][..j - 1] && s[..j][0] == s[0];
      } else {
        TrailingSpace(s[1..], 0, "");
        assert s[..0] == "" && s[1..][..0] == "";
      }
    }
  }

  /** Normalising a cell's white space keeps its words. */
  lemma CellTextKeepsWords(value: string)
    ensures Words(CellText(value), "") == Words(value, "")
  {
    var i, j := TrimShape(PySpace, value);
    SqueezeKeepsWords(Trim(PySpace, value), false, "");
    hide Trim, Squeeze, Words;
    LeadingSpace(value, i);
    assert forall k | j - i <= k < |value[i..]| :: value[i..][k] == value[k + i];
    TrailingSpace(value[i..], j - i, "");
    assert value[i..][..j - i] == value[i..j];
  }

  // ---------------------------------------------------------------- reading

  function Prefix(text: string, parts: seq<string>): seq<string>
    requires parts != []
  {
    [text + parts[0]] + parts[1..]
  }

  /** A line cut at its pipes, those after a backslash excepted. */
  function Cut(line: string): (parts: seq<string>)
    ensures parts != []
  {
    if line == "" then [""]
    else if line[0] == '|' then [""] + Cut(line[1..])
    else if |line| > 1 && line[0] == '\\' && line[1] == '|' then Prefix("\\|", Cut(line[2..]))
    else Prefix([line[0]], Cut(line[1..]))
  }

  function Unescape(cell: string): string {
    if cell == "" then ""
    else if |cell| > 1 && cell[0] == '\\' && cell[1] == '|' then "|" + Unescape(cell[2..])
    else [cell[0]] + Unescape(cell[1..])
  }

  /** The cells of a line: what stands between the outer pipes, without its padding. */
  function ReadLine(line: string): seq<string> {
    var parts := Cut(line);
    if |parts| < 2 then [] else seq(|parts| - 2, i requires 0 <= i < |parts| - 2 => Unescape(Trim(PySpace, parts[i + 1])))
  }

  function SplitLines(text: string): (lines: seq<string>)
    ensures lines != []
  {
    if text == "" then [""]
    else if text[0] == '\n' then [""] + SplitLines(text[1..])
    else Prefix([text[0]], SplitLines(text[1..]))
  }

  function ReadLines(lines: seq<string>): seq<seq<string>> {
    seq(|lines|, i requires 0 <= i < |lines| => ReadLine(lines[i]))
  }

  /** The rows of a table, without the rule under the header. */
  function ReadTable(text: string): seq<seq<string>> {
    var lines := SplitLines(text);
    if |lines| < 2 then ReadLines(lines) else ReadLines(lines[..1]) + ReadLines(lines[2..])
  }

  // ---------------------------------------------------------------- cells

  /** Normalised text: no white space but single spaces, none at the ends. */
  predicate SingleSpaced(s: string) {
    && Trimmed(PySpace, s)
    && (forall c <- s :: PySpace(c) ==> c == ' ')
    && forall i | 0 <= i < |s| - 1 :: !(PySpace(s[i]) && PySpace(s[i + 1]))
  }

  lemma {:induction false} SqueezeWorks(s: string, inside: bool)
    ensures var t := Squeeze(s, inside);
            && (forall c <- t :: PySpace(c) ==> c == ' ')
            && (forall i | 0 <= i < |t| - 1 :: !(PySpace(t[i]) && PySpace(t[i + 1])))
            && (inside && t != "" ==> !PySpace(t[0]))
            && (s != "" && !PySpace(s[0]) ==> t != "" && t[0] == s[0])
            && (s != "" && !PySpace(s[|s| - 1]) ==> t != "" && t[|t| - 1] == s[|s| - 1])
  {
    if s != "" {
      SqueezeWorks(s[1..], PySpace(s[0]));
      var u := Squeeze(s[1..], PySpace(s[0]));
      assert Squeeze(s, inside) == (if !PySpace(s[0]) then [s[0]] else if inside then "" else " ") + u;
    }
  }

  lemma CellTextIsSingleSpaced(value: string)
    ensures SingleSpaced(CellText(value))
  {
    TrimFixpoint(PySpace, value);
    SqueezeWorks(Trim(PySpace, value), false);
  }

  lemma {:induction false} EscapeKeeps(s: string)
    ensures var t := EscapePipes(s);
            && (s == "" <==> t == "")
            && (s != "" ==> t[0] == (if s[0] == '|' then '\\' else s[0]) && t[|t| - 1] == s[|s| - 1])
            && forall c <- t :: c in s || c == '\\'
  {
    if s != "" {
      EscapeKeeps(s[1..]);
      assert s == [s[0]] + s[1..];
    }
  }

  /** Unescaping undoes escaping. */
  lemma {:induction false} UnescapeUndoesEscape(s: string)
    ensures Unescape(EscapePipes(s)) == s
  {
    if s != "" {
      UnescapeUndoesEscape(s[1..]);
      var rest := EscapePipes(s[1..]);
      EscapeKeeps(s[1..]);
      if s[0] == '|' {
        assert ("\\|" + rest)[2..] == rest;
      } else {
        assert ([s[0]] + rest)[1..] == rest;
      }
      assert s == [s[0]] + s[1..];
    }
  }

  lemma CutEscaped(text: string)
    ensures Cut("\\|" + text) == Prefix("\\|", Cut(text))
  {
    assert ("\\|" + text)[2..] == text;
  }

  lemma CutPlain(c: char, text: string)
    requires c != '|' && (text != "" ==> text[0] != '|')
    ensures Cut([c] + text) == Prefix([c], Cut(text))
  {
    assert ([c] + text)[1..] == text;
  }

  lemma PrefixTwice(a: string, b: string, parts: seq<string>)
    requires parts != []
    ensures Prefix(a, Prefix(b, parts)) == Prefix(a + b, parts)
  {
    assert a + (b + parts[0]) == (a + b) + parts[0];
  }

  /** An escaped cell holds no separator, whatever follows its closing space. */
  lemma {:induction false} CutCell(s: string, rest: string)
    requires rest != "" && rest[0] == ' '
    ensures Cut(EscapePipes(s) + rest) == Prefix(EscapePipes(s), Cut(rest))
  {
    var text := EscapePipes(s) + rest;
    if s == "" {
      assert text == rest && "" + Cut(rest)[0] == Cut(rest)[0];
    } else {
      hide Cut, Prefix;
      var more := EscapePipes(s[1..]);
      EscapeKeeps(s[1..]);
      CutCell(s[1..], rest);
      if s[0] == '|' {
        assert EscapePipes(s) == "\\|" + more && text == "\\|" + (more + rest);
        CutEscaped(more + rest);
        PrefixTwice("\\|", more, Cut(rest));
      } else {
        assert EscapePipes(s) == [s[0]] + more && text == [s[0]] + (more + rest);
        CutPlain(s[0], more + rest);
        PrefixTwice([s[0]], more, Cut(rest));
      }
    }
  }

  lemma TrimPadding(s: string)
    requires Trimmed(PySpace, s)
    ensures Trim(PySpace, " " + s + " ") == s
  {
    var t := " " + s + " ";
    assert t[0] == ' ' && t[|t| - 1] == ' ' && PySpace(' ');
    assert forall i | 0 <= i < |s| :: t[i + 1] == s[i];
    var i, j := TrimShape(PySpace, t);
    if s == "" {
      assert forall k | 0 <= k < |t| :: t[k] == ' ';
    } else {
      assert t[1] == s[0] && t[|s|] == s[|s| - 1];
      assert t[1..|s| + 1] == s;
      assert i <= 1 && j >= |s| + 1;
      assert i < j && t[i..j][0] == t[i] && t[i..j][j - i - 1] == t[j - 1];
    }
  }

  // ---------------------------------------------------------------- lines

  function Escaped(texts: seq<string>): seq<string> {
    seq(|texts|, i requires 0 <= i < |texts| => EscapePipes(texts[i]))
  }

  function Padded(texts: seq<string>): seq<string> {
    seq(|texts|, i requires 0 <= i < |texts| => " " + EscapePipes(texts[i]) + " ")
  }

  /** The pipes of a line are its cells' borders and nothing else. */
  lemma {:induction false} CutAfterPipe(texts: seq<string>)
    requires texts != []
    ensures Cut(" " + Join(Escaped(texts), " | ") + " |") == Padded(texts) + [""]
    decreases |texts|
  {
    hide EscapePipes;
    var cells := Escaped(texts);
    var first := cells[0];
    if |texts| == 1 {
      assert " " + Join(cells, " | ") + " |" == " " + (first + " |");
      CutCell(texts[0], " |");
      CutSpace(first + " |");
      CutBorder("");
      assert " |" + "" == " |";
      assert " " + (first + " ") == " " + first + " ";
    } else {
      var rest := " " + Join(cells[1..], " | ") + " |";
      assert cells[1..] == Escaped(texts[1..]);
      CutAfterPipe(texts[1..]);
      assert " " + Join(cells, " | ") + " |" == " " + (first + (" |" + rest));
      CutSpace(first + (" |" + rest));
      CutCell(texts[0], " |" + rest);
      CutBorder(rest);
      assert " " + (first + " ") == " " + first + " ";
      assert Padded(texts) == [" " + first + " "] + Padded(texts[1..]);
    }
  }

  lemma CutSpace(text: string)
    ensures Cut(" " + text) == Prefix(" ", Cut(text))
  {
    assert (" " + text)[1..] == text;
  }

  lemma CutBorder(rest: string)
    ensures Cut(" |" + rest) == [" "] + Cut(rest)
  {
    assert (" |" + rest)[1..] == "|" + rest && ("|" + rest)[1..] == rest;
    assert " " + "" == " ";
  }

  /** A printed line has one separator more than cells, and its cells are read back. */
  lemma LineReadsBack(texts: seq<string>)
    requires texts != [] && forall text <- texts :: SingleSpaced(text)
    ensures |Cut(TableLine(Escaped(texts)))| == |texts| + 2
    ensures ReadLine(TableLine(Escaped(texts))) == texts
  {
    hide EscapePipes, Unescape, SingleSpaced, Join;
    var line := TableLine(Escaped(texts));
    CutAfterPipe(texts);
    assert line == "|" + (" " + Join(Escaped(texts), " | ") + " |");
    assert line[1..] == " " + Join(Escaped(texts), " | ") + " |";
    assert Cut(line) == [""] + Padded(texts) + [""];
    hide Cut;
    forall i | 0 <= i < |texts| ensures ReadLine(line)[i] == texts[i] {
      assert texts[i] in texts;
      assert Cut(line)[i + 1] == Padded(texts)[i];
      CellReadsBack(texts[i]);
    }
  }

  lemma CellReadsBack(text: string)
    requires SingleSpaced(text)
    ensures Unescape(Trim(PySpace, " " + EscapePipes(text) + " ")) == text
  {
    EscapeKeeps(text);
    TrimPadding(EscapePipes(text));
    UnescapeUndoesEscape(text);
  }

  /** The rows as they come back: padded to the table's width, at least one column wide, with their
      white space normalised. */
  function Recovered(row: seq<string>, width: nat): seq<string> {
    var padded := Pad(row, if width == 0 then 1 else width);
    seq(|padded|, i requires 0 <= i < |padded| => CellText(padded[i]))
  }

  lemma RowReadsBack(row: seq<string>, width: nat)
    requires |row| <= width
    ensures var line := TableLine(EscapeRow(row, width));
            && |Cut(line)| == (if width == 0 then 1 else width) + 2
            && ReadLine(line) == Recovered(row, width)
            && LineShape(line)
  {
    var texts := Recovered(row, width);
    forall text <- texts ensures SingleSpaced(text) {
      var i :| 0 <= i < |texts| && texts[i] == text;
      CellTextIsSingleSpaced(Pad(row, if width == 0 then 1 else width)[i]);
    }
    if width == 0 {
      assert EscapeRow(row, width) == [] && texts == [""] by {
        assert CellText("") == "";
      }
      assert Escaped(texts) == [""];
      assert TableLine([]) == TableLine([""]);
    } else {
      assert EscapeRow(row, width) == Escaped(texts);
    }
    LineReadsBack(texts);
    EscapedShape(texts);
  }

  /** A line between pipes, without line ends inside. */
  predicate LineShape(line: string) {
    |line| >= 2 && line[0] == '|' && line[|line| - 1] == '|' && '\n' !in line && '\r' !in line
  }

  lemma EscapedShape(texts: seq<string>)
    requires forall text <- texts :: SingleSpaced(text)
    ensures LineShape(TableLine(Escaped(texts)))
  {
    var cells := Escaped(texts);
    forall cell <- cells ensures '\n' !in cell && '\r' !in cell {
      var i :| 0 <= i < |cells| && cells[i] == cell;
      EscapeKeeps(texts[i]);
      assert texts[i] in texts && PySpace('\n') && PySpace('\r');
    }
    JoinClean(cells, " | ");
  }

  lemma {:induction false} JoinClean(parts: seq<string>, separator: string)
    requires forall part <- parts :: '\n' !in part && '\r' !in part
    requires '\n' !in separator && '\r' !in separator
    ensures '\n' !in Join(parts, separator) && '\r' !in Join(parts, separator)
    decreases |parts|
  {
    if |parts| > 1 {
      JoinClean(parts[1..], separator);
      assert parts[0] in parts;
    } else if |parts| == 1 {
      assert parts[0] in parts;
    }
  }

  lemma RuleShape(width: nat)
    ensures var rule := TableLine(seq(width, _ => "---"));
            LineShape(rule) && |Cut(rule)| == (if width == 0 then 1 else width) + 2
  {
    var dashes := seq(width, _ => "---");
    var texts := if width == 0 then [""] else dashes;
    assert EscapePipes("---") == "---" by {
      assert "---"[1..] == "--" && "--"[1..] == "-" && "-"[1..] == "";
      assert EscapePipes("-") == "-" && EscapePipes("--") == "--";
    }
    assert forall text <- texts :: SingleSpaced(text);
    assert width > 0 ==> Escaped(texts) == dashes;
    assert width == 0 ==> Escaped(texts) == [""] && TableLine([]) == TableLine([""]) && dashes == [];
    LineReadsBack(texts);
    EscapedShape(texts);
  }

  // ---------------------------------------------------------------- tables

  lemma {:induction false} WidthBounds(rows: seq<seq<string>>)
    ensures forall row <- rows :: |row| <= Width(rows)
  {
    if rows != [] {
      WidthBounds(rows[1..]);
      assert rows == [rows[0]] + rows[1..];
    }
  }

  lemma LinesShape(rows: seq<seq<string>>)
    requires rows != []
    ensures var lines, width := TableLines(rows), Width(rows);
            && |lines| == |rows| + 1
            && (forall line <- lines :: LineShape(line) && |Cut(line)| == (if width == 0 then 1 else width) + 2)
            && ReadLine(lines[0]) == Recovered(rows[0], width)
            && (forall i | 1 <= i < |rows| :: ReadLine(lines[i + 1]) == Recovered(rows[i], width))
  {
    hide TableLine, EscapeRow, LineShape, Cut, ReadLine, Recovered;
    var lines, width := TableLines(rows), Width(rows);
    WidthBounds(rows);
    RuleShape(width);
    forall i | 0 <= i < |rows|
      ensures var line := TableLine(EscapeRow(rows[i], width));
              && LineShape(line) && |Cut(line)| == (if width == 0 then 1 else width) + 2
              && ReadLine(line) == Recovered(rows[i], width)
    {
      assert rows[i] in rows;
      RowReadsBack(rows[i], width);
    }
    assert forall i | 1 <= i < |rows| :: lines[i + 1] == TableLine(EscapeRow(rows[i], width));
    assert forall i | 2 <= i < |lines| :: lines[i] == TableLine(EscapeRow(rows[i - 1], width));
  }

  /** Lines joined by line ends are split into the same lines. */
  lemma {:induction false} SplitJoin(lines: seq<string>)
    requires lines != [] && forall line <- lines :: '\n' !in line
    ensures SplitLines(Join(lines, "\n")) == lines
    decreases |lines|
  {
    if |lines| == 1 {
      assert lines[0] + "" == lines[0] && lines == [lines[0]];
      SplitOne(lines[0], "");
    } else {
      assert forall line <- lines[1..] :: line in lines;
      SplitJoin(lines[1..]);
      var rest := Join(lines[1..], "\n");
      assert lines[0] + "\n" + rest == lines[0] + ("\n" + rest);
      SplitOne(lines[0], "\n" + rest);
      assert ("\n" + rest)[1..] == rest;
      assert lines[0] + "" == lines[0] && lines == [lines[0]] + lines[1..];
    }
  }

  lemma {:induction false} SplitOne(line: string, rest: string)
    requires '\n' !in line
    ensures SplitLines(line + rest) == Prefix(line, SplitLines(rest))
  {
    if line == "" {
      assert line + rest == rest && "" + SplitLines(rest)[0] == SplitLines(rest)[0];
    } else {
      assert line[0] in line && forall c <- line[1..] :: c in line;
      assert (line + rest)[1..] == line[1..] + rest;
      SplitOne(line[1..], rest);
      PrefixTwice([line[0]], line[1..], SplitLines(rest));
      assert [line[0]] + line[1..] == line;
    }
  }

  lemma NoLineEnds(lines: seq<string>)
    requires forall line <- lines :: LineShape(line)
    ensures forall line <- lines :: '\n' !in line
  {
  }

  /** Every line of a printed table has the same number of separators, and reading the table gives
      back every cell of every row with its white space normalised. */
  lemma TableReadsBack(rows: seq<seq<string>>)
    requires rows != []
    ensures forall line <- SplitLines(MarkdownTable(rows)) :: |Cut(line)| - 1 == (if Width(rows) == 0 then 1 else Width(rows)) + 1
    ensures ReadTable(MarkdownTable(rows)) == RecoveredRows(rows)
  {
    var lines, width := TableLines(rows), Width(rows);
    LinesShape(rows);
    NoLineEnds(lines);
    SplitJoin(lines);
    assert SplitLines(MarkdownTable(rows)) == lines;
    ReadLinesAre(lines, RecoveredRows(rows));
  }

  function RecoveredRows(rows: seq<seq<string>>): seq<seq<string>> {
    seq(|rows|, i requires 0 <= i < |rows| => Recovered(rows[i], Width(rows)))
  }

  lemma ReadLinesAre(lines: seq<string>, want: seq<seq<string>>)
    requires want != [] && |lines| == |want| + 1
    requires ReadLine(lines[0]) == want[0] && forall i | 1 <= i < |want| :: ReadLine(lines[i + 1]) == want[i]
    ensures ReadLines(lines[..1]) + ReadLines(lines[2..]) == want
  {
    hide ReadLine;
    var read := ReadLines(lines[..1]) + ReadLines(lines[2..]);
    assert forall i | 1 <= i < |want| :: read[i] == ReadLine(lines[2..][i - 1]) == ReadLine(lines[i + 1]);
  }

  // ---------------------------------------------------------------- tables are normal text

  lemma {:induction false} JoinedIsNormal(lines: seq<string>)
    requires lines != [] && forall line <- lines :: LineShape(line)
    ensures var text := Join(lines, "\n");
            Normal(text) && |text| >= 2 && text[0] == '|'
    decreases |lines|
  {
    assert lines[0] in lines;
    LineIsNormal(lines[0]);
    if |lines| > 1 {
      assert forall line <- lines[1..] :: line in lines;
      JoinedIsNormal(lines[1..]);
      GlueNormal(lines[0], Join(lines[1..], "\n"));
    }
  }

  lemma LineIsNormal(line: string)
    requires LineShape(line)
    ensures Normal(line)
  {
    assert forall i | 0 <= i < |line| :: line[i] in line;
  }

  lemma GlueNormal(line: string, text: string)
    requires LineShape(line) && Normal(text) && |text| >= 2 && text[0] == '|'
    ensures Normal(line + "\n" + text)
  {
    var tail := "\n" + text;
    LineIsNormal(line);
    hide NoBlankBefore, NoBlankAfter, NoTriple;
    Prepend('\n', text);
    PrependTriple('\n', text);
    GlueParts(line, tail);
    assert line + tail == line + "\n" + text;
    assert PySpace('|') == false;
  }

  /** A line between pipes may stand before any clean text. */
  lemma GlueParts(line: string, tail: string)
    requires LineShape(line) && NoBlankBefore(tail) && NoBlankAfter(tail) && NoTriple(tail)
    ensures NoBlankBefore(line + tail) && NoBlankAfter(line + tail) && NoTriple(line + tail)
  {
    LineIsNormal(line);
    hide NoBlankBefore, NoBlankAfter, NoTriple;
    GlueBefore(line, tail);
    GlueAfter(line, tail);
    GlueTriple(line, tail);
  }

  lemma GlueBefore(line: string, tail: string)
    requires LineShape(line) && NoBlankBefore(line) && NoBlankBefore(tail)
    ensures NoBlankBefore(line + tail)
  {
    forall i: nat ensures !BlankThenEnd(line + tail, i) {
      assert if i < |line| then !BlankThenEnd(line, i) else !BlankThenEnd(tail, i - |line|);
    }
  }

  lemma GlueAfter(line: string, tail: string)
    requires LineShape(line) && NoBlankAfter(line) && NoBlankAfter(tail)
    ensures NoBlankAfter(line + tail)
  {
    forall i: nat ensures !EndThenBlank(line + tail, i) {
      assert if i < |line| then !EndThenBlank(line, i) else !EndThenBlank(tail, i - |line|);
    }
  }

  lemma GlueTriple(line: string, tail: string)
    requires LineShape(line) && NoTriple(tail)
    ensures NoTriple(line + tail)
  {
    forall i: nat ensures !ThreeEnds(line + tail, i) {
      if i < |line| {
        assert line[i] in line;
      } else {
        assert !ThreeEnds(tail, i - |line|);
      }
    }
  }

  /** Normalising leaves every printed table unchanged. */
  lemma TableIsNormal(rows: seq<seq<string>>)
    ensures Normalize(MarkdownTable(rows)) == MarkdownTable(rows)
  {
    if rows != [] {
      LinesShape(rows);
      JoinedIsNormal(TableLines(rows));
    }
    NormalizeFixesNormal(MarkdownTable(rows));
  }
}
