/** Text clean-up in the document extractor (`workers/document_extraction/extract.py:94-99`). */
module ExtractText {
  import opened Common

  predicate Blank(c: char) {
    c == ' ' || c == '\t'
  }

  // ---------------------------------------------------------------- the five substitutions

  /** CRLF, then a lone CR, becomes LF. */
  function ReplaceCrLf(s: string): string {
    if s == "" then ""
    else if |s| >= 2 && s[0] == '\r' && s[1] == '\n' then "\n" + ReplaceCrLf(s[2..])
    else [s[0]] + ReplaceCrLf(s[1..])
  }

  function ReplaceCr(s: string): string {
    if s == "" then "" else [if s[0] == '\r' then '\n' else s[0]] + ReplaceCr(s[1..])
  }

  /** Blanks that reach a line end are removed. */
  function DropBefore(s: string): string {
    if s == "" then ""
    else
      var rest := DropBefore(s[1..]);
      if Blank(s[0]) && rest != "" && rest[0] == '\n' then rest else [s[0]] + rest
  }

  /** Blanks that follow a line end are removed; `after` says that a line end or its blanks precede `s`. */
  function DropAfter(s: string, after: bool): string {
    if s == "" then ""
    else if after && Blank(s[0]) then DropAfter(s[1..], true)
    else [s[0]] + DropAfter(s[1..], s[0] == '\n')
  }

  /** Of three or more line ends in a row two remain; `run` of them precede `s`. */
  function Collapse(s: string, run: nat): string {
    if s == "" then ""
    else if s[0] != '\n' then [s[0]] + Collapse(s[1..], 0)
    else if run >= 2 then Collapse(s[1..], run)
    else "\n" + Collapse(s[1..], run + 1)
  }

  /** `_normalize_markdown` */
  function Normalize(text: string): string {
    Trim(PySpace, Collapse(DropAfter(DropBefore(ReplaceCr(ReplaceCrLf(text))), false), 0))
  }

  // ---------------------------------------------------------------- what each one is

  function LineEnds(s: string): string {
    ReplaceCr(ReplaceCrLf(s))
  }

  /** Line ends: a CRLF is one LF, a lone CR is one LF, everything else stays; so no CR is left. */
  lemma LineEndsMatch(c: char, rest: string)
    ensures LineEnds("") == ""
    ensures LineEnds("\r\n" + rest) == "\n" + LineEnds(rest)
    ensures rest == "" || rest[0] != '\n' ==> LineEnds("\r" + rest) == "\n" + LineEnds(rest)
    ensures c != '\r' ==> LineEnds([c] + rest) == [c] + LineEnds(rest)
  {
    assert ("\r\n" + rest)[2..] == rest && ("\r" + rest)[1..] == rest && ([c] + rest)[1..] == rest;
    ReplaceCrOne('\n', ReplaceCrLf(rest));
    ReplaceCrOne('\r', ReplaceCrLf(rest));
    ReplaceCrOne(c, ReplaceCrLf(rest));
    hide ReplaceCr;
  }

  lemma ReplaceCrOne(c: char, s: string)
    ensures ReplaceCr([c] + s) == [if c == '\r' then '\n' else c] + ReplaceCr(s)
  {
    assert ([c] + s)[1..] == s;
  }

  /** `[ \t]+\n` */
  lemma {:induction false} DropBeforeMatches(blanks: string, rest: string)
    requires forall c <- blanks :: c == ' ' || c == '\t'
    ensures DropBefore(blanks + ("\n" + rest)) == "\n" + DropBefore(rest)
    decreases |blanks|
  {
    hide DropBefore;
    DropOne('\n', rest);
    if blanks == "" {
      assert blanks + ("\n" + rest) == "\n" + rest;
    } else {
      var more := blanks[1..];
      assert blanks[0] in blanks && forall c <- more :: c in blanks;
      DropBeforeMatches(more, rest);
      assert blanks + ("\n" + rest) == [blanks[0]] + (more + ("\n" + rest));
      DropOne(blanks[0], more + ("\n" + rest));
    }
  }

  /** Blanks that do not reach a line end stay. */
  lemma {:induction false} OtherBlanksStay(blanks: string, rest: string)
    requires forall c <- blanks :: c == ' ' || c == '\t'
    requires rest != "" && !Blank(rest[0]) && rest[0] != '\n'
    ensures DropBefore(blanks + rest) == blanks + DropBefore(rest)
    decreases |blanks|
  {
    hide DropBefore;
    if blanks == "" {
      assert blanks + rest == rest && blanks + DropBefore(rest) == DropBefore(rest);
    } else {
      var more := blanks[1..];
      assert blanks[0] in blanks && (more != "" ==> more[0] in blanks) && forall c <- more :: c in blanks;
      OtherBlanksStay(more, rest);
      HeadStays(rest);
      assert blanks + rest == [blanks[0]] + (more + rest);
      DropOne(blanks[0], more + rest);
      assert [blanks[0]] + (more + DropBefore(rest)) == blanks + DropBefore(rest);
    }
  }

  lemma HeadStays(rest: string)
    requires rest != "" && !Blank(rest[0])
    ensures DropBefore(rest) != "" && DropBefore(rest)[0] == rest[0]
  {
  }

  lemma DropOne(c: char, s: string)
    ensures var kept := DropBefore(s);
            DropBefore([c] + s) == if Blank(c) && kept != "" && kept[0] == '\n' then kept else [c] + kept
  {
    assert ([c] + s)[1..] == s;
  }

  /** `\n[ \t]+` */
  lemma {:induction false} DropAfterMatches(blanks: string, rest: string)
    requires forall c <- blanks :: c == ' ' || c == '\t'
    requires rest != "" ==> !Blank(rest[0])
    ensures DropAfter(blanks + rest, true) == DropAfter(rest, false)
    decreases |blanks|
  {
    if blanks == "" {
      assert blanks + rest == rest;
    } else {
      assert (blanks + rest)[1..] == blanks[1..] + rest && blanks[0] in blanks;
      assert forall c <- blanks[1..] :: c in blanks;
      DropAfterMatches(blanks[1..], rest);
    }
  }

  /** What is left of `n` line ends after `run` others: two in all, at most. */
  function UpToTwo(n: nat, run: nat): string {
    if n == 0 || run >= 2 then "" else "\n" + UpToTwo(n - 1, run + 1)
  }

  /** `\n{3,}` */
  lemma {:induction false} CollapseMatches(ends: string, run: nat, rest: string)
    requires forall c <- ends :: c == '\n'
    requires rest != "" ==> rest[0] != '\n'
    ensures Collapse(ends + rest, run) == UpToTwo(|ends|, run) + Collapse(rest, 0)
    decreases |ends|
  {
    hide Collapse;
    if ends == "" {
      assert ends + rest == rest;
      CollapseStart(rest, run);
      assert UpToTwo(0, run) + Collapse(rest, 0) == Collapse(rest, 0);
    } else {
      var more := ends[1..];
      assert ends[0] in ends && forall c <- more :: c in ends;
      assert ends + rest == "\n" + (more + rest);
      CollapseEnd(more + rest, run);
      CollapseMatches(more, if run >= 2 then run else run + 1, rest);
      if run < 2 {
        assert "\n" + (UpToTwo(|more|, run + 1) + Collapse(rest, 0)) == UpToTwo(|ends|, run) + Collapse(rest, 0);
      }
    }
  }

  lemma CollapseStart(rest: string, run: nat)
    requires rest != "" ==> rest[0] != '\n'
    ensures Collapse(rest, run) == Collapse(rest, 0)
  {
  }

  lemma CollapseEnd(s: string, run: nat)
    ensures Collapse("\n" + s, run) == if run >= 2 then Collapse(s, run) else "\n" + Collapse(s, run + 1)
  {
    assert ("\n" + s)[1..] == s;
  }

  /** From three line ends on, two are left. */
  lemma UpToTwoIsTwo(n: nat)
    ensures UpToTwo(n, 0) == if n >= 2 then "\n\n" else if n == 1 then "\n" else ""
  {
    if n > 0 {
      assert UpToTwo(n - 1, 1) == if n >= 2 then "\n" + UpToTwo(n - 2, 2) else "";
    }
  }

  // ---------------------------------------------------------------- normal text

  predicate BlankThenEnd(s: string, i: nat) {
    i + 1 < |s| && (s[i] == ' ' || s[i] == '\t') && s[i + 1] == '\n'
  }

  predicate EndThenBlank(s: string, i: nat) {
    i + 1 < |s| && s[i] == '\n' && (s[i + 1] == ' ' || s[i + 1] == '\t')
  }

  predicate ThreeEnds(s: string, i: nat) {
    i + 2 < |s| && s[i] == '\n' && s[i + 1] == '\n' && s[i + 2] == '\n'
  }

  ghost predicate NoBlankBefore(s: string) {
    forall i: nat :: !BlankThenEnd(s, i)
  }

  ghost predicate NoBlankAfter(s: string) {
    forall i: nat :: !EndThenBlank(s, i)
  }

  ghost predicate NoTriple(s: string) {
    forall i: nat :: !ThreeEnds(s, i)
  }

  /** No CR, no blank beside a line end, no three line ends in a row, no white space at the ends. */
  ghost predicate Normal(s: string) {
    '\r' !in s && NoBlankBefore(s) && NoBlankAfter(s) && NoTriple(s) && Trimmed(PySpace, s)
  }

  lemma {:induction false} ReplaceCrLfFix(s: string)
    requires '\r' !in s
    ensures ReplaceCrLf(s) == s && ReplaceCr(s) == s
  {
    if s != "" {
      assert s[0] in s && forall c <- s[1..] :: c in s;
      ReplaceCrLfFix(s[1..]);
      assert s == [s[0]] + s[1..];
    }
  }

  lemma {:induction false} ReplaceCrLeavesNone(s: string)
    ensures '\r' !in ReplaceCr(s)
  {
    if s != "" {
      ReplaceCrLeavesNone(s[1..]);
    }
  }

  lemma Prepend(c: char, r: string)
    requires NoBlankBefore(r) && NoBlankAfter(r)
    requires r != "" ==> !(Blank(c) && r[0] == '\n') && !(c == '\n' && Blank(r[0]))
    ensures NoBlankBefore([c] + r) && NoBlankAfter([c] + r)
  {
    forall i: nat ensures !BlankThenEnd([c] + r, i) && !EndThenBlank([c] + r, i) {
      if i > 0 {
        assert !BlankThenEnd(r, i - 1) && !EndThenBlank(r, i - 1);
      }
    }
  }

  lemma EmptyIsClean()
    ensures NoBlankBefore("") && NoBlankAfter("") && NoTriple("")
  {
  }

  /** A part of a clean text is clean. */
  lemma SliceIsClean(s: string, from: nat, to: nat)
    requires from <= to <= |s|
    ensures '\r' !in s ==> '\r' !in s[from..to]
    ensures NoBlankBefore(s) ==> NoBlankBefore(s[from..to])
    ensures NoBlankAfter(s) ==> NoBlankAfter(s[from..to])
    ensures NoTriple(s) ==> NoTriple(s[from..to])
  {
    var u := s[from..to];
    assert forall c <- u :: c in s;
    forall i: nat
      ensures BlankThenEnd(u, i) ==> BlankThenEnd(s, from + i)
      ensures EndThenBlank(u, i) ==> EndThenBlank(s, from + i)
      ensures ThreeEnds(u, i) ==> ThreeEnds(s, from + i)
    {
    }
  }

  lemma Tail(s: string)
    requires s != ""
    ensures '\r' !in s ==> '\r' !in s[1..] && s[0] != '\r'
    ensures NoBlankBefore(s) ==> NoBlankBefore(s[1..]) && (|s| > 1 && Blank(s[0]) ==> s[1] != '\n')
    ensures NoBlankAfter(s) ==> NoBlankAfter(s[1..]) && (|s| > 1 && s[0] == '\n' ==> !Blank(s[1]))
    ensures NoTriple(s) ==> NoTriple(s[1..]) && !ThreeEnds(s, 0)
  {
    SliceIsClean(s, 1, |s|);
    assert s[0] in s && s[1..|s|] == s[1..];
    assert NoBlankBefore(s) ==> !BlankThenEnd(s, 0);
    assert NoBlankAfter(s) ==> !EndThenBlank(s, 0);
  }

  lemma {:induction false} DropBeforeWorks(s: string)
    requires '\r' !in s
    ensures '\r' !in DropBefore(s) && NoBlankBefore(DropBefore(s))
    ensures NoBlankBefore(s) ==> DropBefore(s) == s
  {
    hide NoBlankAfter, NoTriple;
    if s == "" {
      EmptyIsClean();
    } else {
      Tail(s);
      DropBeforeWorks(s[1..]);
      var r := DropBefore(s[1..]);
      assert s == [s[0]] + s[1..];
      if !(Blank(s[0]) && r != "" && r[0] == '\n') {
        forall i: nat ensures !BlankThenEnd([s[0]] + r, i) {
          if i > 0 {
            assert !BlankThenEnd(r, i - 1);
          }
        }
      }
    }
  }

  lemma {:induction false} DropAfterWorks(s: string, after: bool)
    requires '\r' !in s && NoBlankBefore(s)
    ensures var t := DropAfter(s, after);
            && '\r' !in t && NoBlankBefore(t) && NoBlankAfter(t)
            && (after && t != "" ==> !Blank(t[0]))
            && (!after && s != "" ==> t != "" && t[0] == s[0])
            && (NoBlankAfter(s) && (after && s != "" ==> !Blank(s[0])) ==> t == s)
  {
    hide NoBlankBefore, NoBlankAfter;
    if s != "" {
      Tail(s);
      if after && Blank(s[0]) {
        DropAfterWorks(s[1..], true);
      } else {
        var r := DropAfter(s[1..], s[0] == '\n');
        DropAfterWorks(s[1..], s[0] == '\n');
        Prepend(s[0], r);
        assert s == [s[0]] + s[1..];
      }
    } else {
      EmptyIsClean();
    }
  }

  lemma PrependTriple(c: char, r: string)
    requires NoTriple(r) && (c == '\n' && |r| >= 2 ==> r[0] != '\n' || r[1] != '\n')
    ensures NoTriple([c] + r)
  {
    forall i: nat ensures !ThreeEnds([c] + r, i) {
      if i > 0 {
        assert !ThreeEnds(r, i - 1);
      }
    }
  }

  /** What holds of the collapsed rest after `run` line ends. */
  ghost predicate Collapsed(t: string, run: nat) {
    && '\r' !in t && NoBlankBefore(t) && NoBlankAfter(t) && NoTriple(t)
    && (run > 0 && t != "" ==> !Blank(t[0]))
    && (run >= 2 && t != "" ==> t[0] != '\n')
    && (run >= 1 && |t| >= 2 ==> t[0] != '\n' || t[1] != '\n')
  }

  lemma {:induction false} CollapseWorks(s: string, run: nat)
    requires '\r' !in s && NoBlankBefore(s) && NoBlankAfter(s)
    requires run > 0 && s != "" ==> !Blank(s[0])
    ensures Collapsed(Collapse(s, run), run)
    ensures run == 0 && s != "" ==> Collapse(s, run) != "" && Collapse(s, run)[0] == s[0]
  {
    hide NoBlankBefore, NoBlankAfter, NoTriple;
    if s == "" {
      EmptyIsClean();
    } else {
      Tail(s);
      if s[0] == '\n' && run >= 2 {
        CollapseWorks(s[1..], run);
      } else {
        var after := if s[0] == '\n' then run + 1 else 0;
        var r := Collapse(s[1..], after);
        CollapseWorks(s[1..], after);
        Prepend(s[0], r);
        PrependTriple(s[0], r);
        assert Collapse(s, run) == [s[0]] + r;
      }
    }
  }

  lemma {:induction false} CollapseFix(s: string, run: nat)
    requires NoTriple(s) && run <= 2
    requires run >= 2 && s != "" ==> s[0] != '\n'
    requires run >= 1 && |s| >= 2 ==> s[0] != '\n' || s[1] != '\n'
    ensures Collapse(s, run) == s
  {
    if s != "" {
      Tail(s);
      CollapseFix(s[1..], if s[0] == '\n' then run + 1 else 0);
      assert s == [s[0]] + s[1..];
    }
  }

  /** The result is always normal. */
  lemma NormalizeIsNormal(text: string)
    ensures Normal(Normalize(text))
  {
    var a := ReplaceCr(ReplaceCrLf(text));
    ReplaceCrLeavesNone(ReplaceCrLf(text));
    DropBeforeWorks(a);
    DropAfterWorks(DropBefore(a), false);
    var t := DropAfter(DropBefore(a), false);
    CollapseWorks(t, 0);
    var c := Collapse(t, 0);
    var i, j := TrimShape(PySpace, c);
    SliceIsClean(c, i, j);
  }

  /** Normal texts, and only they, are left unchanged; hence normalising twice is normalising once. */
  lemma NormalizeFixesNormal(text: string)
    ensures Normalize(text) == text <==> Normal(text)
    ensures Normalize(Normalize(text)) == Normalize(text)
  {
    NormalizeIsNormal(text);
    if Normal(text) {
      FixesNormal(text);
    }
    FixesNormal(Normalize(text));
  }

  lemma FixesNormal(text: string)
    requires Normal(text)
    ensures Normalize(text) == text
  {
    ReplaceCrLfFix(text);
    DropBeforeWorks(text);
    DropAfterWorks(text, false);
    CollapseFix(text, 0);
    TrimFixpoint(PySpace, text);
  }
}
