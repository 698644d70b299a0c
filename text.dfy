/**
 * The string operations the .osu parser relies on: String.prototype.split
 * with a one-character separator, String.prototype.trim, and the handful of
 * anchored regular expressions of Beatmap.parse, each written out as a
 * function on `seq<char>` together with a lemma that pins down what it
 * accepts.
 */
module Text {
  import opened Wrappers

  /** ECMAScript WhiteSpace and LineTerminator: what `trim` strips and `\s` matches. */
  predicate IsWhitespace(c: char)
  {
    || c == '\t' || c == '\n' || c == '\U{000B}' || c == '\U{000C}' || c == '\r' || c == ' '
    || c == '\U{00A0}' || c == '\U{1680}' || ('\U{2000}' <= c <= '\U{200A}')
    || c == '\U{2028}' || c == '\U{2029}' || c == '\U{202F}' || c == '\U{205F}' || c == '\U{3000}'
    || c == '\U{FEFF}'
  }

  /** The characters a regular-expression `.` does not match. */
  predicate IsLineTerminator(c: char)
  {
    c == '\n' || c == '\r' || c == '\U{2028}' || c == '\U{2029}'
  }

  lemma LineTerminatorIsWhitespace(c: char)
    requires IsLineTerminator(c)
    ensures IsWhitespace(c)
  {
  }

  predicate AllWhitespace(s: string)
  {
    forall i :: 0 <= i < |s| ==> IsWhitespace(s[i])
  }

  /** Whitespace from index `lo` up to, not including, `hi`. */
  predicate WhitespaceIn(s: string, lo: int, hi: int)
    requires 0 <= lo <= hi <= |s|
  {
    forall i :: lo <= i < hi ==> IsWhitespace(s[i])
  }

  predicate NoLineTerminator(s: string)
  {
    forall i :: 0 <= i < |s| ==> !IsLineTerminator(s[i])
  }

  /** The index of the first `c` in `s`. */
  function IndexOf(s: string, c: char): (k: nat)
    requires c in s
    ensures k < |s| && s[k] == c && c !in s[..k]
  {
    if s[0] == c then 0 else IndexOf(s[1..], c) + 1
  }

  // ---------------------------------------------------------------- split

  /** `s.split(sep)`: the pieces between occurrences of `sep`; never empty. */
  function Split(s: string, sep: char): (parts: seq<string>)
    ensures |parts| >= 1
    ensures forall i :: 0 <= i < |parts| ==> sep !in parts[i]
    decreases |s|
  {
    if sep in s then
      var k := IndexOf(s, sep);
      [s[..k]] + Split(s[k + 1..], sep)
    else
      [s]
  }

  /** `parts.join(sep)`. */
  function Join(parts: seq<string>, sep: char): string
    requires |parts| >= 1
  {
    if |parts| == 1 then parts[0] else parts[0] + [sep] + Join(parts[1..], sep)
  }

  /** Joining the pieces with the separator gives the text back. */
  lemma {:induction false} JoinSplit(s: string, sep: char)
    ensures Join(Split(s, sep), sep) == s
    decreases |s|
  {
    if sep in s {
      var k := IndexOf(s, sep);
      JoinSplit(s[k + 1..], sep);
      assert Split(s, sep)[1..] == Split(s[k + 1..], sep);
      assert s == s[..k] + [sep] + s[k + 1..];
    }
  }

  /** The first separator of `p + [c] + rest`, when `p` has none, is at `|p|`. */
  lemma IndexOfAfter(p: string, c: char, rest: string)
    requires c !in p
    ensures IndexOf(p + [c] + rest, c) == |p|
  {
    var s := p + [c] + rest;
    assert s[|p|] == c;
    assert s[..|p|] == p;
  }

  /** Splitting a join of separator-free pieces gives the pieces back. */
  lemma {:induction false} SplitJoin(parts: seq<string>, sep: char)
    requires |parts| >= 1
    requires forall i :: 0 <= i < |parts| ==> sep !in parts[i]
    ensures Split(Join(parts, sep), sep) == parts
    decreases |parts|
  {
    if |parts| > 1 {
      var tail := Join(parts[1..], sep);
      SplitJoin(parts[1..], sep);
      assert Join(parts, sep) == parts[0] + [sep] + tail;
      SplitAfter(parts[0], sep, tail);
      assert parts == [parts[0]] + parts[1..];
    } else {
      assert Join(parts, sep) == parts[0];
    }
  }

  /** A separator-free piece followed by the separator splits off first. */
  lemma SplitAfter(p: string, sep: char, rest: string)
    requires sep !in p
    ensures Split(p + [sep] + rest, sep) == [p] + Split(rest, sep)
  {
    var s := p + [sep] + rest;
    IndexOfAfter(p, sep, rest);
    assert s[..|p|] == p;
    assert s[|p| + 1..] == rest;
  }

  // ----------------------------------------------------------------- trim

  /** Leading whitespace removed. */
  function TrimStart(s: string): (r: string)
    ensures |r| <= |s| && r == s[|s| - |r|..]
    ensures WhitespaceIn(s, 0, |s| - |r|)
    ensures r == [] || !IsWhitespace(r[0])
  {
    if s != [] && IsWhitespace(s[0]) then
      TrimStart(s[1..])
    else
      s
  }

  /** Trailing whitespace removed. */
  function TrimEnd(s: string): (r: string)
    ensures |r| <= |s| && r == s[..|r|]
    ensures WhitespaceIn(s, |r|, |s|)
    ensures r == [] || !IsWhitespace(r[|r| - 1])
  {
    if s != [] && IsWhitespace(s[|s| - 1]) then
      TrimEnd(s[..|s| - 1])
    else
      s
  }

  /** `s.trim()`. */
  function Trim(s: string): string
  {
    TrimEnd(TrimStart(s))
  }

  /** A slice of `s` obtained by dropping only whitespace at both ends. */
  ghost predicate IsTrimOf(s: string, r: string)
  {
    exists a, b :: TrimmedAt(s, r, a, b)
  }

  /** `r` is `s[a..b]`, with whitespace only outside it and none at its ends. */
  ghost predicate TrimmedAt(s: string, r: string, a: int, b: int)
  {
    && 0 <= a <= b <= |s| && r == s[a..b]
    && WhitespaceIn(s, 0, a) && WhitespaceIn(s, b, |s|)
    && (r == [] || (!IsWhitespace(r[0]) && !IsWhitespace(r[|r| - 1])))
  }

  /** `trim` strips whitespace at both ends and nothing else. */
  lemma TrimIsTrimOf(s: string)
    ensures IsTrimOf(s, Trim(s))
  {
    var a, b := TrimmedAtOf(s, TrimStart(s), Trim(s));
  }

  /**
   * A prefix `r` of a suffix `t` of `s`, with whitespace only before `t` and
   * after `r` and none at the ends of `r`, is trimmed at the matching indices.
   */
  lemma TrimmedAtOf(s: string, t: string, r: string) returns (a: int, b: int)
    requires |t| <= |s| && t == s[|s| - |t|..] && WhitespaceIn(s, 0, |s| - |t|)
    requires t == [] || !IsWhitespace(t[0])
    requires |r| <= |t| && r == t[..|r|] && WhitespaceIn(t, |r|, |t|)
    requires r == [] || !IsWhitespace(r[|r| - 1])
    ensures TrimmedAt(s, r, a, b)
  {
    a := |s| - |t|;
    b := a + |r|;
    forall i | b <= i < |s|
      ensures IsWhitespace(s[i])
    {
      assert s[i] == t[i - a];
    }
    if r != [] {
      assert r[0] == t[0];
    }
    assert r == s[a..b];
  }

  /** A trimmed string neither starts nor ends with whitespace. */
  lemma TrimEnds(s: string)
    ensures var r := Trim(s); r == [] || (!IsWhitespace(r[0]) && !IsWhitespace(r[|r| - 1]))
  {
    var t := TrimStart(s);
    var r := TrimEnd(t);
    if r != [] {
      assert r[0] == t[0];
    }
  }

  /** There is only one way to trim: whitespace on both ends and a core without it. */
  lemma TrimUnique(w1: string, core: string, w2: string)
    requires AllWhitespace(w1) && AllWhitespace(w2)
    requires core == [] || (!IsWhitespace(core[0]) && !IsWhitespace(core[|core| - 1]))
    ensures Trim(w1 + core + w2) == core
  {
    if core == [] {
      assert w1 + core + w2 == w1 + w2;
      TrimStartAllWhitespace(w1 + w2);
    } else {
      assert w1 + core + w2 == w1 + (core + w2);
      TrimStartOfPadded(w1, core + w2);
      TrimEndOfPadded(core, w2);
    }
  }

  lemma TrimStartAllWhitespace(w: string)
    requires AllWhitespace(w)
    ensures TrimStart(w) == []
  {
  }

  lemma {:induction false} TrimStartOfPadded(w: string, s: string)
    requires AllWhitespace(w)
    requires s != [] && !IsWhitespace(s[0])
    ensures TrimStart(w + s) == s
    decreases |w|
  {
    var t := w + s;
    if w != [] {
      assert t[0] == w[0] && IsWhitespace(t[0]);
      assert t[1..] == w[1..] + s;
      TrimStartOfPadded(w[1..], s);
      assert TrimStart(t) == TrimStart(t[1..]);
    } else {
      assert t == s;
    }
  }

  lemma {:induction false} TrimEndOfPadded(s: string, w: string)
    requires AllWhitespace(w) && s != [] && !IsWhitespace(s[|s| - 1])
    ensures TrimEnd(s + w) == s
    decreases |w|
  {
    var t := s + w;
    if w != [] {
      assert t[|t| - 1] == w[|w| - 1] && IsWhitespace(t[|t| - 1]);
      assert t[..|t| - 1] == s + w[..|w| - 1];
      TrimEndOfPadded(s, w[..|w| - 1]);
      assert TrimEnd(t) == TrimEnd(t[..|t| - 1]);
    } else {
      assert t == s;
    }
  }

  /** Trimming twice is trimming once. */
  lemma TrimIdempotent(s: string)
    ensures Trim(Trim(s)) == Trim(s)
  {
    var r := Trim(s);
    TrimUnique([], r, []);
    assert [] + r + [] == r;
  }

  // ----------------------------------------------------- line classification

  /** `/^(\/\/|[ _])/`: a comment, or a storyboard line starting with a space or `_`. */
  predicate IsCommentLine(line: string)
  {
    (|line| >= 2 && line[0] == '/' && line[1] == '/')
    || (|line| >= 1 && (line[0] == ' ' || line[0] == '_'))
  }

  /** `/^\[([^\]]+)\]$/`: the section name of a `[Name]` line. */
  function SectionName(line: string): (r: Option<string>)
  {
    if |line| >= 3 && line[0] == '[' && line[|line| - 1] == ']' && ']' !in line[1..|line| - 1]
    then Some(line[1..|line| - 1])
    else None
  }

  /** A section line is exactly `[`, a non-empty name without `]`, and `]`. */
  lemma SectionNameExact(line: string, name: string)
    ensures SectionName(line) == Some(name)
            <==> name != [] && ']' !in name && line == ['['] + name + [']']
  {
    if line == ['['] + name + [']'] {
      assert line[1..|line| - 1] == name;
    }
    if SectionName(line) == Some(name) {
      assert line == [line[0]] + line[1..|line| - 1] + [line[|line| - 1]];
    }
  }

  /** The key and value `/^([^:]+)\s*:\s*(.+)$/` captures. */
  function KeyValue(line: string): (r: Option<(string, string)>)
    ensures r.Some? ==> r.value.0 != [] && ':' !in r.value.0 && r.value.1 != []
    ensures r.Some? ==> NoLineTerminator(r.value.1)
  {
    if ':' !in line then None
    else
      var p := IndexOf(line, ':');
      var rest := line[p + 1..];
      var v := TrimStart(rest);
      if p == 0 then None
      else if v != [] then
        if NoLineTerminator(v) then Some((line[..p], v)) else None
      // `\s*` backs off one character so that `(.+)` can match
      else if rest != [] && !IsLineTerminator(rest[|rest| - 1]) then Some((line[..p], [rest[|rest| - 1]]))
      else None
  }

  /**
   * What the pattern matches: the key runs up to the first colon, the value
   * follows it after whitespace, and never spans a line terminator.
   */
  lemma KeyValueShape(line: string)
    ensures KeyValue(line).Some? ==>
      var (key, value) := KeyValue(line).value;
      && |key| + 1 + |value| <= |line|
      && line[..|key|] == key && line[|key|] == ':'
      && WhitespaceIn(line, |key| + 1, |line| - |value|)
      && line[|line| - |value|..] == value
  {
  }

  /** A `Key: value` line gives its key and value back. */
  lemma KeyValueOfPair(key: string, w: string, value: string)
    requires key != [] && ':' !in key
    requires AllWhitespace(w)
    requires value != [] && !IsWhitespace(value[0]) && NoLineTerminator(value)
    ensures KeyValue(key + [':'] + w + value) == Some((key, value))
  {
    var line := key + [':'] + w + value;
    assert line == key + [':'] + (w + value);
    IndexOfAfter(key, ':', w + value);
    assert line[..|key|] == key;
    assert line[|key| + 1..] == w + value;
    TrimStartOfPadded(w, value);
  }

  // ------------------------------------------------------------------ header

  const MAGIC: string := "osu file format v"

  predicate IsDigit(c: char)
  {
    '0' <= c <= '9'
  }

  predicate AllDigits(s: string)
  {
    forall i :: 0 <= i < |s| ==> IsDigit(s[i])
  }

  /** `/^osu file format v(\d+)$/`: the digits of the format version. */
  function HeaderDigits(line: string): (r: Option<string>)
    ensures r.Some? ==> r.value != [] && AllDigits(r.value) && line == MAGIC + r.value
  {
    if |line| > |MAGIC| && line[..|MAGIC|] == MAGIC && AllDigits(line[|MAGIC|..]) then
      assert line == line[..|MAGIC|] + line[|MAGIC|..];
      Some(line[|MAGIC|..])
    else None
  }

  /** The number a digit string denotes (the header's version is compared as a number). */
  function DecimalValue(digits: string): nat
    requires AllDigits(digits)
  {
    if digits == [] then 0
    else 10 * DecimalValue(digits[..|digits| - 1]) + (digits[|digits| - 1] as int - '0' as int)
  }

  /** The shortest decimal spelling of `n`. */
  function DecimalText(n: nat): (s: string)
    ensures s != [] && AllDigits(s)
  {
    if n < 10 then [('0' as int + n) as char]
    else DecimalText(n / 10) + [('0' as int + n % 10) as char]
  }

  lemma {:induction false} DecimalRoundTrip(n: nat)
    ensures DecimalValue(DecimalText(n)) == n
  {
    var s := DecimalText(n);
    if n >= 10 {
      DecimalRoundTrip(n / 10);
      assert s[..|s| - 1] == DecimalText(n / 10);
    }
  }

  /** The header line of version `n` is recognised and gives `n` back. */
  lemma HeaderRoundTrip(n: nat)
    ensures HeaderDigits(MAGIC + DecimalText(n)).Some?
    ensures DecimalValue(HeaderDigits(MAGIC + DecimalText(n)).value) == n
  {
    var line := MAGIC + DecimalText(n);
    assert line[..|MAGIC|] == MAGIC;
    assert line[|MAGIC|..] == DecimalText(n);
    DecimalRoundTrip(n);
  }
}
