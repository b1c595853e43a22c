/** Vocabulary shared by the models: optional and failing results, the byte-wise text
    order that SQLite's BINARY collation and Python's `sorted` use, and trimming. */
module Common {

  datatype Option<+T> = None | Some(value: T)

  datatype Result<+T> = Ok(value: T) | Err(code: string)

  // ---------------------------------------------------------------- text order

  /** `a` does not come after `b` in the lexicographic order of their characters. */
  predicate LexLeq(a: string, b: string) {
    a == "" || (b != "" && (a[0] < b[0] || (a[0] == b[0] && LexLeq(a[1..], b[1..]))))
  }

  predicate LexLess(a: string, b: string) {
    a != b && LexLeq(a, b)
  }

  lemma {:induction false} LexReflexive(a: string)
    ensures LexLeq(a, a)
  {
    if a != "" {
      LexReflexive(a[1..]);
    }
  }

  lemma {:induction false} LexTotal(a: string, b: string)
    ensures LexLeq(a, b) || LexLeq(b, a)
  {
    if a != "" && b != "" && a[0] == b[0] {
      LexTotal(a[1..], b[1..]);
    }
  }

  lemma {:induction false} LexAntisymmetric(a: string, b: string)
    requires LexLeq(a, b) && LexLeq(b, a)
    ensures a == b
  {
    if a != "" {
      LexAntisymmetric(a[1..], b[1..]);
      assert a == [a[0]] + a[1..] && b == [b[0]] + b[1..];
    }
  }

  lemma {:induction false} LexTransitive(a: string, b: string, c: string)
    requires LexLeq(a, b) && LexLeq(b, c)
    ensures LexLeq(a, c)
  {
    if a != "" && a[0] == b[0] && b[0] == c[0] {
      LexTransitive(a[1..], b[1..], c[1..]);
    }
  }

  // ---------------------------------------------------------------- trimming

  /** The characters `String.prototype.trim` removes: ECMAScript WhiteSpace and LineTerminator. */
  predicate JsSpace(c: char) {
    CommonSpace(c) || c == '\U{FEFF}'
  }

  /** The characters `str.strip` removes and `\s` matches in Python. */
  predicate PySpace(c: char) {
    CommonSpace(c) || '\U{001C}' <= c <= '\U{001F}' || c == '\U{0085}'
  }

  predicate CommonSpace(c: char) {
    c in "\t\n\r \U{000B}\U{000C}\U{00A0}\U{1680}\U{2028}\U{2029}\U{202F}\U{205F}\U{3000}"
    || '\U{2000}' <= c <= '\U{200A}'
  }

  function TrimStart(space: char -> bool, s: string): string {
    if s != "" && space(s[0]) then TrimStart(space, s[1..]) else s
  }

  function TrimEnd(space: char -> bool, s: string): string {
    if s != "" && space(s[|s| - 1]) then TrimEnd(space, s[..|s| - 1]) else s
  }

  function Trim(space: char -> bool, s: string): string {
    TrimEnd(space, TrimStart(space, s))
  }

  /** No white space at either end. */
  predicate Trimmed(space: char -> bool, s: string) {
    s != "" ==> !space(s[0]) && !space(s[|s| - 1])
  }

  lemma {:induction false} TrimStartShape(space: char -> bool, s: string) returns (k: nat)
    ensures TrimStart(space, s) != "" ==> !space(TrimStart(space, s)[0])
    ensures k <= |s| && TrimStart(space, s) == s[k..]
    ensures forall i :: 0 <= i < k ==> space(s[i])
  {
    if s != "" && space(s[0]) {
      var j := TrimStartShape(space, s[1..]);
      assert s[1..][j..] == s[j + 1..];
      assert forall i :: 1 <= i < j + 1 ==> s[i] == s[1..][i - 1];
      k := j + 1;
    } else {
      k := 0;
    }
  }

  lemma {:induction false} TrimEndShape(space: char -> bool, s: string) returns (k: nat)
    ensures TrimEnd(space, s) != "" ==> !space(TrimEnd(space, s)[|TrimEnd(space, s)| - 1])
    ensures k <= |s| && TrimEnd(space, s) == s[..k]
    ensures forall i :: k <= i < |s| ==> space(s[i])
  {
    if s != "" && space(s[|s| - 1]) {
      k := TrimEndShape(space, s[..|s| - 1]);
      assert s[..|s| - 1][..k] == s[..k];
      assert forall i :: k <= i < |s| - 1 ==> s[i] == s[..|s| - 1][i];
    } else {
      k := |s|;
    }
  }

  /** Trimming cuts the text to the slice between its first and last visible character. */
  lemma TrimShape(space: char -> bool, s: string) returns (i: nat, j: nat)
    ensures i <= j <= |s| && Trim(space, s) == s[i..j] && Trimmed(space, s[i..j])
    ensures forall k :: 0 <= k < i || j <= k < |s| ==> space(s[k])
  {
    i := TrimStartShape(space, s);
    var k := TrimEndShape(space, s[i..]);
    j := i + k;
    assert s[i..][..k] == s[i..j];
    assert forall m :: j <= m < |s| ==> s[m] == s[i..][m - i];
  }

  /** Trimming yields trimmed text, and leaves exactly the trimmed texts alone. */
  lemma TrimFixpoint(space: char -> bool, s: string)
    ensures Trimmed(space, Trim(space, s))
    ensures Trim(space, s) == s <==> Trimmed(space, s)
  {
    var i, j := TrimShape(space, s);
  }

  // ---------------------------------------------------------------- decimal numbers

  /** The decimal text of a number. */
  function Digits(n: nat): (s: string)
    ensures s != "" && forall c <- s :: '0' <= c <= '9'
  {
    if n < 10 then ['0' + n as char] else Digits(n / 10) + ['0' + (n % 10) as char]
  }

  function ValueOf(s: string): int {
    if s == "" then 0 else 10 * ValueOf(s[..|s| - 1]) + (s[|s| - 1] as int - '0' as int)
  }

  lemma {:induction false} DigitsValue(n: nat)
    ensures ValueOf(Digits(n)) == n
  {
    if n >= 10 {
      DigitsValue(n / 10);
      assert Digits(n)[..|Digits(n)| - 1] == Digits(n / 10);
    }
  }

  // ---------------------------------------------------------------- counting

  function Members<T>(s: seq<T>): set<T> {
    set x <- s
  }

  /** A list without repetition has as many members as positions. */
  lemma {:induction false} DistinctCount<T>(s: seq<T>)
    requires forall i, j | 0 <= i < j < |s| :: s[i] != s[j]
    ensures |Members(s)| == |s|
  {
    if s != [] {
      var init, last := s[..|s| - 1], s[|s| - 1];
      DistinctCount(init);
      assert last !in init;
      assert Members(s) == Members(init) + {last};
    }
  }

  /** `Number.MAX_SAFE_INTEGER` */
  const MAX_SAFE_INTEGER := 0x1F_FFFF_FFFF_FFFF
}
