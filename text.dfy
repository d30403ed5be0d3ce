/** The pieces of Python's `str` and `re` that the order parsers rely on:
    character classes, whitespace tokenising (`str.split()`), integer
    parsing (`int(str)`) and the small scanners the hand-coded patterns
    are built from. Digits and word characters are the ASCII ones. */
module Text {

  /** Python's `str.isspace()`, which is also what `\s` matches in a `str`
      pattern: the ASCII controls TAB..CR and FS..US, the space, NEL, NBSP
      and the Unicode space separators and line/paragraph separators. */
  predicate IsSpace(c: char) {
    || c == ' '
    || '\t' <= c <= '\r'
    || '\U{1C}' <= c <= '\U{1F}'
    || c == '\U{85}' || c == '\U{A0}' || c == '\U{1680}'
    || '\U{2000}' <= c <= '\U{200A}'
    || c == '\U{2028}' || c == '\U{2029}' || c == '\U{202F}' || c == '\U{205F}'
    || c == '\U{3000}'
  }

  predicate IsDigit(c: char) {
    '0' <= c <= '9'
  }

  /** `s.isdigit()` and `re.fullmatch(r"\d+", s)`: non-empty, digits only. */
  predicate IsDigits(s: string) {
    s != [] && forall i :: 0 <= i < |s| ==> IsDigit(s[i])
  }

  /** `re.fullmatch(r"\d{7}", s)`: the shape of an order number. */
  predicate IsOrderNumber(s: string) {
    |s| == 7 && IsDigits(s)
  }

  /** A member of `\w` (restricted to ASCII) or `-`: the characters of an invoice number. */
  predicate IsWordOrDash(c: char) {
    'a' <= c <= 'z' || 'A' <= c <= 'Z' || IsDigit(c) || c == '_' || c == '-'
  }

  function DigitValue(c: char): (d: nat)
    requires IsDigit(c)
    ensures d < 10
  {
    c as int - '0' as int
  }

  /** The decimal value of a run of digits, most significant first. */
  function DigitsValue(s: string): nat
    requires forall i :: 0 <= i < |s| ==> IsDigit(s[i])
  {
    if s == [] then 0 else DigitsValue(s[..|s| - 1]) * 10 + DigitValue(s[|s| - 1])
  }

  /** The decimal spelling of a natural number, as Python's `str(n)` writes it. */
  function Decimal(n: nat): (s: string)
    ensures IsDigits(s)
  {
    if n < 10 then [('0' as int + n) as char]
    else Decimal(n / 10) + [('0' as int + n % 10) as char]
  }

  lemma {:induction false} DecimalValue(n: nat)
    ensures DigitsValue(Decimal(n)) == n
  {
    var s := Decimal(n);
    if n >= 10 {
      DecimalValue(n / 10);
      assert s[..|s| - 1] == Decimal(n / 10);
    }
  }

  /** `sys.int_info.default_max_str_digits`: `int` of a decimal string with
      more digits than this raises `ValueError`. */
  const MaxStrDigits := 4300

  /** Python's `int(s)` on a whitespace-free token: an optional `+` or `-`
      followed by one to `MaxStrDigits` digits; anything else is a
      `ValueError`, modelled as `None`. */
  function ParseInt(s: string): Option<int> {
    if IsDigits(s) then
      if |s| <= MaxStrDigits then Some(DigitsValue(s)) else None
    else if |s| >= 2 && (s[0] == '+' || s[0] == '-') && IsDigits(s[1..]) then
      if |s| - 1 > MaxStrDigits then None
      else if s[0] == '+' then Some(DigitsValue(s[1..]))
      else Some(0 - DigitsValue(s[1..]) as int)
    else None
  }

  lemma ParseIntDigits(d: string)
    requires IsDigits(d)
    ensures ParseInt(d) == if |d| <= MaxStrDigits then Some(DigitsValue(d) as int) else None
  {
  }

  lemma ParseIntNegative(d: string)
    requires IsDigits(d)
    ensures ParseInt("-" + d) == if |d| <= MaxStrDigits then Some(0 - DigitsValue(d) as int) else None
  {
    var s := "-" + d;
    assert s[1..] == d;
    assert !IsDigits(s) by { assert !IsDigit(s[0]); }
  }

  /** `int` reads back what `str` writes, for every integer whose spelling
      is within the digit limit, and refuses every longer one. */
  lemma ParseIntDecimal(n: int)
    ensures ParseInt(if n < 0 then "-" + Decimal(-n) else Decimal(n)) ==
      if |Decimal(if n < 0 then -n else n)| <= MaxStrDigits then Some(n) else None
  {
    if n < 0 {
      DecimalValue(-n);
      ParseIntNegative(Decimal(-n));
    } else {
      DecimalValue(n);
      ParseIntDigits(Decimal(n));
    }
  }


  datatype Option<T> = None | Some(value: T)

  // ----- scanners over a line, by position -----

  /** The first present entry at or after `p`. Given what a pattern
      matches at each position of a line, this is `re.search`: the match
      at the leftmost position where there is one. */
  function FirstFrom<T>(ms: seq<Option<T>>, p: nat): Option<T>
    requires p <= |ms|
    decreases |ms| - p
  {
    if p == |ms| then None
    else if ms[p].Some? then ms[p]
    else FirstFrom(ms, p + 1)
  }

  /** `FirstFrom` is absent exactly when every entry from `p` on is, and
      otherwise it is an entry with none present before it. */
  lemma {:induction false} FirstFromSpec<T>(ms: seq<Option<T>>, p: nat)
    requires p <= |ms|
    ensures FirstFrom(ms, p) == None <==> forall q :: p <= q < |ms| ==> ms[q] == None
    ensures FirstFrom(ms, p).Some? ==>
      exists q :: p <= q < |ms| && ms[q] == FirstFrom(ms, p)
        && (forall r :: p <= r < q ==> ms[r] == None)
    decreases |ms| - p
  {
    if p < |ms| && ms[p].None? {
      FirstFromSpec(ms, p + 1);
      if FirstFrom(ms, p).Some? {
        var q :| p + 1 <= q < |ms| && ms[q] == FirstFrom(ms, p)
          && (forall r :: p + 1 <= r < q ==> ms[r] == None);
        assert forall r :: p <= r < q ==> ms[r] == None;
      }
    }
  }

  /** The value of the last present entry of `ms`, or `d` when none is
      present: a variable that every present entry overwrites in turn. */
  function LastFound<T>(ms: seq<Option<T>>, d: T): T
    decreases |ms|
  {
    if ms == [] then d
    else match ms[|ms| - 1]
      case Some(x) => x
      case None => LastFound(ms[..|ms| - 1], d)
  }

  /** Entry `j` is present and no entry after it is. */
  predicate IsLastPresent<T>(ms: seq<Option<T>>, j: int) {
    0 <= j < |ms| && ms[j].Some? && forall l :: j < l < |ms| ==> ms[l] == None
  }

  lemma {:induction false} LastFoundNone<T>(ms: seq<Option<T>>, d: T)
    requires forall j :: 0 <= j < |ms| ==> ms[j] == None
    ensures LastFound(ms, d) == d
    decreases |ms|
  {
    if ms != [] {
      var init := ms[..|ms| - 1];
      assert forall j :: 0 <= j < |init| ==> init[j] == ms[j];
      LastFoundNone(init, d);
    }
  }

  lemma {:induction false} LastFoundAt<T>(ms: seq<Option<T>>, d: T, j: int)
    requires IsLastPresent(ms, j)
    ensures LastFound(ms, d) == ms[j].value
    decreases |ms|
  {
    if j < |ms| - 1 {
      var init := ms[..|ms| - 1];
      assert forall l :: j < l < |init| ==> init[l] == ms[l];
      LastFoundAt(init, d, j);
    }
  }

  /** `LastFound` keeps `d` when no entry is present and is otherwise the
      value of the last present entry. */
  lemma LastFoundSpec<T>(ms: seq<Option<T>>, d: T)
    ensures (forall j :: 0 <= j < |ms| ==> ms[j] == None) ==> LastFound(ms, d) == d
    ensures forall j :: IsLastPresent(ms, j) ==> LastFound(ms, d) == ms[j].value
  {
    if forall j :: 0 <= j < |ms| ==> ms[j] == None {
      LastFoundNone(ms, d);
    }
    forall j | IsLastPresent(ms, j) ensures LastFound(ms, d) == ms[j].value {
      LastFoundAt(ms, d, j);
    }
  }

  /** Running over `a + b` is running over `a`, then over `b` from there. */
  lemma {:induction false} LastFoundAppend<T>(a: seq<Option<T>>, b: seq<Option<T>>, d: T)
    ensures LastFound(a + b, d) == LastFound(b, LastFound(a, d))
    decreases |b|
  {
    if b == [] {
      assert a + b == a;
    } else {
      assert (a + b)[..|a + b| - 1] == a + b[..|b| - 1];
      LastFoundAppend(a, b[..|b| - 1], d);
    }
  }

  /** The end of the run of digits that starts at `p`. */
  function DigitRunEnd(s: string, p: nat): (e: nat)
    requires p <= |s|
    ensures p <= e <= |s|
    decreases |s| - p
  {
    if p < |s| && IsDigit(s[p]) then DigitRunEnd(s, p + 1) else p
  }

  /** The run `DigitRunEnd` measures is all digits and cannot be extended. */
  lemma {:induction false} DigitRunEndSpec(s: string, p: nat)
    requires p <= |s|
    ensures forall i :: p <= i < DigitRunEnd(s, p) ==> IsDigit(s[i])
    ensures DigitRunEnd(s, p) == |s| || !IsDigit(s[DigitRunEnd(s, p)])
    decreases |s| - p
  {
    if p < |s| && IsDigit(s[p]) {
      DigitRunEndSpec(s, p + 1);
    }
  }

  /** The end of the run of whitespace (`\s*`) that starts at `p`. */
  function SpaceRunEnd(s: string, p: nat): (e: nat)
    requires p <= |s|
    ensures p <= e <= |s|
    decreases |s| - p
  {
    if p < |s| && IsSpace(s[p]) then SpaceRunEnd(s, p + 1) else p
  }

  /** The run `SpaceRunEnd` measures is all whitespace and cannot be extended. */
  lemma {:induction false} SpaceRunEndSpec(s: string, p: nat)
    requires p <= |s|
    ensures forall i :: p <= i < SpaceRunEnd(s, p) ==> IsSpace(s[i])
    ensures SpaceRunEnd(s, p) == |s| || !IsSpace(s[SpaceRunEnd(s, p)])
    decreases |s| - p
  {
    if p < |s| && IsSpace(s[p]) {
      SpaceRunEndSpec(s, p + 1);
    }
  }

  /** `s[p..]` starts with the literal `w`. */
  predicate LiteralAt(s: string, p: nat, w: string) {
    p + |w| <= |s| && forall i :: 0 <= i < |w| ==> s[p + i] == w[i]
  }

  /** `c` equals the lower-case ASCII letter `l` under `re.IGNORECASE`; in a
      `str` pattern the Kelvin sign folds to `k` and the long s to `s`. */
  predicate FoldsTo(c: char, l: char)
    requires 'a' <= l <= 'z'
  {
    c == l || c as int == l as int - 32
    || (l == 'k' && c == '\U{212A}') || (l == 's' && c == '\U{17F}')
  }

  predicate IsLowerWord(w: string) {
    forall i :: 0 <= i < |w| ==> 'a' <= w[i] <= 'z'
  }

  /** `s[p..]` starts with `w` under `re.IGNORECASE`. */
  predicate FoldedAt(s: string, p: nat, w: string)
    requires IsLowerWord(w)
  {
    p + |w| <= |s| && forall i :: 0 <= i < |w| ==> FoldsTo(s[p + i], w[i])
  }

  // ----- str.split() -----

  /** The end of the non-blank token that starts at `p`. */
  function TokenEnd(s: string, p: nat): (e: nat)
    requires p <= |s|
    ensures p <= e <= |s|
    decreases |s| - p
  {
    if p < |s| && !IsSpace(s[p]) then TokenEnd(s, p + 1) else p
  }

  lemma {:induction false} TokenEndSpec(s: string, p: nat)
    requires p <= |s|
    ensures forall i :: p <= i < TokenEnd(s, p) ==> !IsSpace(s[i])
    ensures TokenEnd(s, p) == |s| || IsSpace(s[TokenEnd(s, p)])
    decreases |s| - p
  {
    if p < |s| && !IsSpace(s[p]) {
      TokenEndSpec(s, p + 1);
    }
  }

  /** A token of `str.split()`: non-empty and without whitespace. */
  predicate IsToken(t: string) {
    t != [] && forall i :: 0 <= i < |t| ==> !IsSpace(t[i])
  }

  /** Python's `s.strip().split()`: the maximal runs of non-whitespace, in order. */
  function Split(s: string): seq<string>
    decreases |s|
  {
    if s == [] then []
    else if IsSpace(s[0]) then Split(s[1..])
    else
      var n := TokenEnd(s, 0);
      [s[..n]] + Split(s[n..])
  }

  /** Every token `Split` yields is non-empty and free of whitespace. */
  lemma {:induction false} SplitTokens(s: string)
    ensures forall i :: 0 <= i < |Split(s)| ==> IsToken(Split(s)[i])
    decreases |s|
  {
    if s != [] {
      if IsSpace(s[0]) {
        SplitTokens(s[1..]);
      } else {
        var n := TokenEnd(s, 0);
        TokenEndSpec(s, 0);
        SplitTokens(s[n..]);
        assert Split(s) == [s[..n]] + Split(s[n..]);
      }
    }
  }

  /** Tokens joined with single spaces, the inverse of `Split`. */
  function Join(parts: seq<string>): string {
    if parts == [] then ""
    else if |parts| == 1 then parts[0]
    else parts[0] + " " + Join(parts[1..])
  }

  lemma {:induction false} TokenEndAt(s: string, p: nat, e: nat)
    requires p <= e <= |s|
    requires forall i :: p <= i < e ==> !IsSpace(s[i])
    requires e == |s| || IsSpace(s[e])
    ensures TokenEnd(s, p) == e
    decreases e - p
  {
    if p < e {
      TokenEndAt(s, p + 1, e);
    }
  }

  lemma TokenEndOfToken(t: string, rest: string)
    requires IsToken(t)
    requires rest == [] || IsSpace(rest[0])
    ensures TokenEnd(t + rest, 0) == |t|
  {
    TokenEndAt(t + rest, 0, |t|);
  }

  /** Splitting the space-joined tokens gives the tokens back. */
  lemma {:induction false} SplitJoin(parts: seq<string>)
    requires forall i :: 0 <= i < |parts| ==> IsToken(parts[i])
    ensures Split(Join(parts)) == parts
  {
    if parts == [] {
    } else if |parts| == 1 {
      var t := parts[0];
      TokenEndOfToken(t, []);
      assert t + [] == t;
      assert t[|t|..] == [];
    } else {
      var t := parts[0];
      var rest := " " + Join(parts[1..]);
      var s := t + rest;
      assert Join(parts) == s;
      TokenEndOfToken(t, rest);
      assert s[..|t|] == t;
      assert s[|t|..] == rest;
      assert rest[1..] == Join(parts[1..]);
      SplitJoin(parts[1..]);
      assert Split(rest) == Split(Join(parts[1..]));
      assert parts == [t] + parts[1..];
    }
  }

  // ----- str.split(sep) -----

  /** Python's `s.split(sep)` for a one-character separator: the pieces
      between the separators, in order; there is always at least one piece
      and pieces may be empty. */
  function SplitOn(s: string, sep: char): (r: seq<string>)
    ensures |r| >= 1
    decreases |s|
  {
    if s == [] then [""]
    else
      var rest := SplitOn(s[1..], sep);
      if s[0] == sep then [""] + rest else [[s[0]] + rest[0]] + rest[1..]
  }

  /** `sep.join(parts)`. */
  function JoinWith(parts: seq<string>, sep: char): string {
    if parts == [] then ""
    else if |parts| == 1 then parts[0]
    else parts[0] + [sep] + JoinWith(parts[1..], sep)
  }

  /** Splitting loses nothing: the pieces joined with the separator give the
      text back, and no piece holds the separator. */
  lemma {:induction false} SplitOnJoin(s: string, sep: char)
    ensures JoinWith(SplitOn(s, sep), sep) == s
    ensures forall i, j :: 0 <= i < |SplitOn(s, sep)| && 0 <= j < |SplitOn(s, sep)[i]| ==> SplitOn(s, sep)[i][j] != sep
    decreases |s|
  {
    if s != [] {
      var rest := SplitOn(s[1..], sep);
      SplitOnJoin(s[1..], sep);
      if s[0] == sep {
        assert SplitOn(s, sep) == [""] + rest;
        if |rest| == 1 {
          assert JoinWith(SplitOn(s, sep), sep) == "" + [sep] + rest[0];
        } else {
          assert JoinWith(SplitOn(s, sep), sep) == "" + [sep] + JoinWith(rest, sep);
        }
        assert s == [sep] + s[1..];
      } else {
        var r := SplitOn(s, sep);
        assert r == [[s[0]] + rest[0]] + rest[1..];
        if |rest| == 1 {
          assert JoinWith(r, sep) == [s[0]] + rest[0];
        } else {
          assert r[1..] == rest[1..];
          assert JoinWith(rest, sep) == rest[0] + [sep] + JoinWith(rest[1..], sep);
          assert JoinWith(r, sep) == [s[0]] + rest[0] + [sep] + JoinWith(rest[1..], sep);
        }
        assert s == [s[0]] + s[1..];
        forall i, j | 0 <= i < |r| && 0 <= j < |r[i]| ensures r[i][j] != sep {
          if i == 0 && j > 0 {
            assert r[0][j] == rest[0][j - 1];
          } else if i > 0 {
            assert r[i] == rest[i];
          }
        }
      }
    }
  }

  // ----- str.splitlines() -----

  /** The line boundaries of `str.splitlines()`: `\n`, `\r` (and `\r\n`
      as one boundary), `\v`, `\f`, FS, GS, RS, NEL and the Unicode line
      and paragraph separators. */
  predicate IsLineBreak(c: char) {
    c == '\n' || c == '\r' || c == '\U{0B}' || c == '\U{0C}'
    || c == '\U{1C}' || c == '\U{1D}' || c == '\U{1E}' || c == '\U{85}'
    || c == '\U{2028}' || c == '\U{2029}'
  }

  /** The end of the line that starts at `p`: the first line break at or
      after `p`, or the end of the text. */
  function LineEnd(s: string, p: nat): (e: nat)
    requires p <= |s|
    ensures p <= e <= |s|
    decreases |s| - p
  {
    if p < |s| && !IsLineBreak(s[p]) then LineEnd(s, p + 1) else p
  }

  lemma {:induction false} LineEndSpec(s: string, p: nat)
    requires p <= |s|
    ensures forall i :: p <= i < LineEnd(s, p) ==> !IsLineBreak(s[i])
    ensures LineEnd(s, p) == |s| || IsLineBreak(s[LineEnd(s, p)])
    decreases |s| - p
  {
    if p < |s| && !IsLineBreak(s[p]) {
      LineEndSpec(s, p + 1);
    }
  }

  /** Where the next line starts after the break at `e`. */
  function BreakEnd(s: string, e: nat): (n: nat)
    requires e < |s|
    ensures e < n <= |s|
  {
    if s[e] == '\r' && e + 1 < |s| && s[e + 1] == '\n' then e + 2 else e + 1
  }

  /** Python's `s.splitlines()`: the lines without their breaks; a break at
      the very end does not open another line, and the empty text has no
      lines. */
  function SplitLines(s: string): seq<string>
    decreases |s|
  {
    if s == [] then []
    else
      var e := LineEnd(s, 0);
      if e == |s| then [s] else [s[..e]] + SplitLines(s[BreakEnd(s, e)..])
  }

  /** No line that `splitlines` yields holds a line break. */
  lemma {:induction false} SplitLinesNoBreaks(s: string)
    ensures forall i, j :: 0 <= i < |SplitLines(s)| && 0 <= j < |SplitLines(s)[i]| ==> !IsLineBreak(SplitLines(s)[i][j])
    decreases |s|
  {
    if s != [] {
      var e := LineEnd(s, 0);
      LineEndSpec(s, 0);
      if e < |s| {
        var rest := s[BreakEnd(s, e)..];
        SplitLinesNoBreaks(rest);
        var r := SplitLines(s);
        assert r == [s[..e]] + SplitLines(rest);
        forall i, j | 0 <= i < |r| && 0 <= j < |r[i]| ensures !IsLineBreak(r[i][j]) {
          if i > 0 {
            assert r[i] == SplitLines(rest)[i - 1];
          }
        }
      }
    }
  }

  /** On text whose only line breaks are `\n` and which does not end with
      one, `splitlines` is undone by joining the lines with `\n`. */
  lemma {:induction false} SplitLinesJoin(s: string)
    requires forall i :: 0 <= i < |s| ==> IsLineBreak(s[i]) ==> s[i] == '\n'
    requires s == [] || s[|s| - 1] != '\n'
    ensures JoinWith(SplitLines(s), '\n') == s
    decreases |s|
  {
    if s != [] {
      var e := LineEnd(s, 0);
      LineEndSpec(s, 0);
      if e < |s| {
        assert s[e] == '\n';
        var rest := s[e + 1..];
        assert BreakEnd(s, e) == e + 1;
        assert rest != [];
        assert forall i :: 0 <= i < |rest| ==> rest[i] == s[e + 1 + i];
        SplitLinesJoin(rest);
        var tail := SplitLines(rest);
        assert tail != [];
        assert JoinWith([s[..e]] + tail, '\n') == s[..e] + ['\n'] + JoinWith(tail, '\n') by {
          assert ([s[..e]] + tail)[1..] == tail;
        }
        assert s == s[..e] + ['\n'] + rest;
      }
    }
  }
}
