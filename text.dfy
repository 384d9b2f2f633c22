/**
 * The JavaScript string operations the note planner relies on:
 * `String.prototype.trim`, `String.prototype.split` with a one-character
 * separator, `Array.prototype.join`, and the decimal rendering of an integer
 * inside a template literal.
 */
module Text {

  /** `s` begins with `prefix`. */
  predicate StartsWith(s: string, prefix: string) {
    |prefix| <= |s| && s[..|prefix|] == prefix
  }

  /** `s` ends with `suffix`. */
  predicate EndsWith(s: string, suffix: string) {
    |suffix| <= |s| && s[|s| - |suffix|..] == suffix
  }

  /** A concatenation starts with its first part and ends with its second. */
  lemma ConcatEnds(a: string, b: string)
    ensures StartsWith(a + b, a) && EndsWith(a + b, b)
  {
    assert (a + b)[..|a|] == a;
    assert (a + b)[|a|..] == b;
  }

  /** A string ends with whatever its ending ends with. */
  lemma EndsWithTransitive(s: string, t: string, u: string)
    requires EndsWith(s, t) && EndsWith(t, u)
    ensures EndsWith(s, u)
  {
    assert s[|s| - |u|..] == t[|t| - |u|..];
  }

  /** `t` occurs in `s` starting at index `i`. */
  predicate OccursAt(s: string, t: string, i: int) {
    0 <= i <= |s| - |t| && s[i..i + |t|] == t
  }

  /** `t` occurs somewhere in `s`. */
  predicate Contains(s: string, t: string) {
    exists i :: 0 <= i <= |s| && OccursAt(s, t, i)
  }

  /** Text found in the second part of a concatenation is found in the whole. */
  lemma ContainsInSuffix(p: string, q: string, t: string)
    requires Contains(q, t)
    ensures Contains(p + q, t)
  {
    var i :| 0 <= i <= |q| && OccursAt(q, t, i);
    assert (p + q)[|p| + i..|p| + i + |t|] == q[i..i + |t|];
    assert OccursAt(p + q, t, |p| + i);
  }

  // ---------------------------------------------------------------- trim

  /**
   * The characters `String.prototype.trim` removes: ECMAScript's WhiteSpace
   * (tab, vertical tab, form feed, the byte order mark and every Unicode
   * space separator) and LineTerminator (line feed, carriage return, line
   * and paragraph separators).
   */
  predicate IsWhitespace(c: char) {
    c in WHITESPACE
  }

  const WHITESPACE: set<char> := {
    '\t', '\U{B}', '\U{C}', ' ', '\U{A0}', '\U{FEFF}', '\U{1680}',
    '\U{2000}', '\U{2001}', '\U{2002}', '\U{2003}', '\U{2004}', '\U{2005}',
    '\U{2006}', '\U{2007}', '\U{2008}', '\U{2009}', '\U{200A}',
    '\U{202F}', '\U{205F}', '\U{3000}',
    '\n', '\r', '\U{2028}', '\U{2029}'
  }

  /** Neither end of `s` is a whitespace character. */
  predicate IsTrimmed(s: string) {
    s == [] || (!IsWhitespace(s[0]) && !IsWhitespace(s[|s| - 1]))
  }

  /** `s` with its leading whitespace removed. */
  function TrimStart(s: string): string
    decreases |s|
  {
    if |s| > 0 && IsWhitespace(s[0]) then TrimStart(s[1..]) else s
  }

  /** `s` with its trailing whitespace removed. */
  function TrimEnd(s: string): string
    decreases |s|
  {
    if |s| > 0 && IsWhitespace(s[|s| - 1]) then TrimEnd(s[..|s| - 1]) else s
  }

  /** What `TrimStart` leaves is a suffix of `s` that does not begin with whitespace, and only whitespace precedes it. */
  lemma {:induction false} TrimStartIsSuffix(s: string)
    ensures var r := TrimStart(s);
            && |r| <= |s| && r == s[|s| - |r|..]
            && (forall k :: 0 <= k < |s| - |r| ==> IsWhitespace(s[k]))
            && (r == [] || !IsWhitespace(r[0]))
    decreases |s|
  {
    if |s| > 0 && IsWhitespace(s[0]) {
      TrimStartIsSuffix(s[1..]);
      var r := TrimStart(s);
      assert r == TrimStart(s[1..]);
      forall k | 0 <= k < |s| - |r| ensures IsWhitespace(s[k]) {
        if k > 0 { assert s[k] == s[1..][k - 1]; }
      }
    }
  }

  /** What `TrimEnd` leaves is a prefix of `s` that does not end with whitespace, and only whitespace follows it. */
  lemma {:induction false} TrimEndIsPrefix(s: string)
    ensures var r := TrimEnd(s);
            && |r| <= |s| && r == s[..|r|]
            && (forall k :: |r| <= k < |s| ==> IsWhitespace(s[k]))
            && (r == [] || !IsWhitespace(r[|r| - 1]))
    decreases |s|
  {
    if |s| > 0 && IsWhitespace(s[|s| - 1]) {
      var t := s[..|s| - 1];
      TrimEndIsPrefix(t);
      var r := TrimEnd(s);
      assert r == TrimEnd(t);
      forall k | |r| <= k < |s| ensures IsWhitespace(s[k]) {
        if k < |s| - 1 { assert s[k] == t[k]; }
      }
    }
  }

  /** `r` is the slice of `s` at `i` and everything of `s` around it is whitespace. */
  predicate IsCoreAt(s: string, r: string, i: int) {
    && 0 <= i <= |s| - |r| && r == s[i..i + |r|]
    && (forall k :: 0 <= k < i ==> IsWhitespace(s[k]))
    && (forall k :: i + |r| <= k < |s| ==> IsWhitespace(s[k]))
  }

  /** `String.prototype.trim`: `s` without the whitespace at either end. */
  function Trim(s: string): string {
    TrimEnd(TrimStart(s))
  }

  /**
   * What trimming leaves: the slice of `s` that remains once the whitespace
   * at both ends is gone, with whitespace at neither of its own ends.
   */
  lemma TrimIsCore(s: string)
    ensures IsTrimmed(Trim(s))
    ensures exists i :: 0 <= i <= |s| && IsCoreAt(s, Trim(s), i)
  {
    var t := TrimStart(s);
    var r := TrimEnd(t);
    TrimStartIsSuffix(s);
    TrimEndIsPrefix(t);
    var i := |s| - |t|;
    assert r == s[i..i + |r|];
    assert forall k :: i + |r| <= k < |s| ==> s[k] == t[k - i];
    assert IsCoreAt(s, r, i);
  }

  /** Trimming a string that has no whitespace at its ends changes nothing. */
  lemma TrimOfTrimmed(s: string)
    requires IsTrimmed(s)
    ensures Trim(s) == s
  {
  }

  /** Whitespace in front of a string does not survive trimming. */
  lemma TrimIgnoresLeadingWhitespace(c: char, s: string)
    requires IsWhitespace(c)
    ensures Trim([c] + s) == Trim(s)
  {
    assert ([c] + s)[1..] == s;
  }

  /** Trimming is idempotent. */
  lemma TrimIdempotent(s: string)
    ensures Trim(Trim(s)) == Trim(s)
  {
    TrimIsCore(s);
    TrimOfTrimmed(Trim(s));
  }

  /** Trimming removes characters and never brings one in. */
  lemma TrimAddsNothing(s: string, c: char)
    requires c !in s
    ensures c !in Trim(s)
  {
    var r := Trim(s);
    TrimIsCore(s);
    var j :| 0 <= j <= |s| && IsCoreAt(s, r, j);
    forall k | 0 <= k < |r| ensures r[k] != c {
      assert r[k] == s[j + k];
    }
  }

  /** Applying `Trim` to every element, as `parts.map(p => p.trim())`. */
  function TrimAll(parts: seq<string>): (r: seq<string>)
    ensures |r| == |parts|
  {
    if parts == [] then [] else [Trim(parts[0])] + TrimAll(parts[1..])
  }

  /** Entry `i` of the trimmed list is entry `i` of the list, trimmed. */
  lemma {:induction false} TrimAllAt(parts: seq<string>, i: nat)
    requires i < |parts|
    ensures TrimAll(parts)[i] == Trim(parts[i])
    decreases i
  {
    if i > 0 {
      TrimAllAt(parts[1..], i - 1);
    }
  }

  /** Trimming every element of a list trims its head, then the rest. */
  lemma TrimAllCons(head: string, tail: seq<string>)
    ensures TrimAll([head] + tail) == [Trim(head)] + TrimAll(tail)
  {
    assert ([head] + tail)[1..] == tail;
  }

  // ---------------------------------------------------------- split, join

  /** The number of times `c` occurs in `s`. */
  function Occurrences(s: string, c: char): nat {
    if s == [] then 0 else (if s[0] == c then 1 else 0) + Occurrences(s[1..], c)
  }

  /**
   * `s.split(sep)` for a one-character separator: the pieces between
   * consecutive separators. There is one more piece than separators (so the
   * empty string splits into one empty piece), and no piece holds `sep`.
   */
  function Split(s: string, sep: char): (parts: seq<string>)
    ensures |parts| == Occurrences(s, sep) + 1
    ensures forall i :: 0 <= i < |parts| ==> sep !in parts[i]
    decreases |s|
  {
    if s == [] then [""]
    else
      var rest := Split(s[1..], sep);
      if s[0] == sep then [""] + rest
      else [[s[0]] + rest[0]] + rest[1..]
  }

  /** `parts.join(sep)`: the parts with `sep` between each two neighbours. */
  function Join(parts: seq<string>, sep: string): string
  {
    if parts == [] then ""
    else if |parts| == 1 then parts[0]
    else parts[0] + sep + Join(parts[1..], sep)
  }

  /** Joining the pieces of a split with the same separator gives back the string. */
  lemma {:induction false} JoinSplit(s: string, sep: char)
    ensures Join(Split(s, sep), [sep]) == s
    decreases |s|
  {
    if s != [] {
      var rest := Split(s[1..], sep);
      JoinSplit(s[1..], sep);
      if s[0] == sep {
        assert ([""] + rest)[1..] == rest;
      } else if |rest| > 1 {
        var parts := [[s[0]] + rest[0]] + rest[1..];
        assert parts[1..] == rest[1..];
        assert Join(rest, [sep]) == rest[0] + [sep] + Join(rest[1..], [sep]);
        assert s == [s[0]] + s[1..];
      } else {
        assert s == [s[0]] + s[1..];
      }
    }
  }

  /** A string without the separator is a single piece. */
  lemma {:induction false} SplitWithoutSeparator(s: string, sep: char)
    requires sep !in s
    ensures Split(s, sep) == [s]
    decreases |s|
  {
    if s != [] {
      assert sep !in s[1..] by {
        forall k | 0 <= k < |s| - 1 ensures s[1..][k] != sep { assert s[1..][k] == s[k + 1]; }
      }
      SplitWithoutSeparator(s[1..], sep);
      assert s == [s[0]] + s[1..];
    }
  }

  /** A character other than the separator joins the first piece. */
  lemma SplitAfterChar(c: char, rest: string, sep: char)
    requires c != sep
    ensures Split([c] + rest, sep) == [[c] + Split(rest, sep)[0]] + Split(rest, sep)[1..]
  {
    assert ([c] + rest)[1..] == rest;
  }

  /** A leading piece without the separator, then the separator, splits off as its own piece. */
  lemma {:induction false} SplitAfterPiece(x: string, sep: char, rest: string)
    requires sep !in x
    ensures Split(x + [sep] + rest, sep) == [x] + Split(rest, sep)
    decreases |x|
  {
    var s := x + [sep] + rest;
    if x == [] {
      assert s[1..] == rest;
    } else {
      assert s[1..] == x[1..] + [sep] + rest;
      assert sep !in x[1..] by {
        forall k | 0 <= k < |x| - 1 ensures x[1..][k] != sep { assert x[1..][k] == x[k + 1]; }
      }
      SplitAfterPiece(x[1..], sep, rest);
      assert [x[0]] + x[1..] == x;
    }
  }

  /** Joining a non-empty list of separator-free parts and splitting again gives the parts back. */
  lemma {:induction false} SplitJoin(parts: seq<string>, sep: char)
    requires |parts| > 0
    requires forall i :: 0 <= i < |parts| ==> sep !in parts[i]
    ensures Split(Join(parts, [sep]), sep) == parts
    decreases |parts|
  {
    if |parts| == 1 {
      SplitWithoutSeparator(parts[0], sep);
    } else {
      SplitJoin(parts[1..], sep);
      SplitAfterPiece(parts[0], sep, Join(parts[1..], [sep]));
      assert [parts[0]] + parts[1..] == parts;
    }
  }

  /** Joining with a separator and a padding character, as `parts.join(sep + pad)`. */
  lemma JoinPadded(parts: seq<string>, sep: char, pad: char)
    requires |parts| > 1
    ensures Join(parts, [sep, pad]) == parts[0] + [sep] + ([pad] + Join(parts[1..], [sep, pad]))
  {
  }

  /** Splitting a padded join: the padding stays at the front of every piece after the first. */
  lemma SplitPadded(parts: seq<string>, sep: char, pad: char)
    requires |parts| > 1 && sep != pad && sep !in parts[0]
    ensures var r := Split(Join(parts[1..], [sep, pad]), sep);
            Split(Join(parts, [sep, pad]), sep) == [parts[0]] + ([[pad] + r[0]] + r[1..])
  {
    var rest := Join(parts[1..], [sep, pad]);
    JoinPadded(parts, sep, pad);
    SplitAfterPiece(parts[0], sep, [pad] + rest);
    SplitAfterChar(pad, rest, sep);
  }

  /** Trimming the pieces of a padded split: the padding in front of the first piece goes away. */
  lemma TrimAllPadded(pad: char, r: seq<string>)
    requires IsWhitespace(pad) && |r| > 0
    ensures TrimAll([[pad] + r[0]] + r[1..]) == TrimAll(r)
  {
    var padded := [pad] + r[0];
    TrimAllCons(padded, r[1..]);
    TrimIgnoresLeadingWhitespace(pad, r[0]);
    TrimAllCons(r[0], r[1..]);
    assert [r[0]] + r[1..] == r;
  }

  /** Every part is free of `sep` and has no whitespace at its ends. */
  predicate CleanParts(parts: seq<string>, sep: char) {
    forall i :: 0 <= i < |parts| ==> sep !in parts[i] && IsTrimmed(parts[i])
  }

  lemma CleanPartsTail(parts: seq<string>, sep: char)
    requires |parts| > 0 && CleanParts(parts, sep)
    ensures CleanParts(parts[1..], sep)
  {
    forall i | 0 <= i < |parts| - 1
      ensures sep !in parts[1..][i] && IsTrimmed(parts[1..][i])
    {
      assert parts[1..][i] == parts[i + 1];
    }
  }

  /**
   * Joining trimmed, separator-free parts with a separator followed by a
   * whitespace character, splitting on the separator and trimming every
   * piece gives the parts back.
   */
  lemma {:induction false} SplitJoinTrim(parts: seq<string>, sep: char, pad: char)
    requires |parts| > 0 && sep != pad && IsWhitespace(pad)
    requires CleanParts(parts, sep)
    ensures TrimAll(Split(Join(parts, [sep, pad]), sep)) == parts
    decreases |parts|
  {
    assert sep !in parts[0] && IsTrimmed(parts[0]);
    TrimOfTrimmed(parts[0]);
    if |parts| == 1 {
      SplitWithoutSeparator(parts[0], sep);
    } else {
      var r := Split(Join(parts[1..], [sep, pad]), sep);
      SplitPadded(parts, sep, pad);
      TrimAllCons(parts[0], [[pad] + r[0]] + r[1..]);
      TrimAllPadded(pad, r);
      CleanPartsTail(parts, sep);
      SplitJoinTrim(parts[1..], sep, pad);
      assert [parts[0]] + parts[1..] == parts;
    }
  }

  // ---------------------------------------------------------------- numbers

  predicate IsDigit(c: char) {
    '0' <= c <= '9'
  }

  function DigitValue(c: char): (d: nat)
    requires IsDigit(c)
    ensures d < 10
  {
    c as int - '0' as int
  }

  function DigitChar(d: nat): (c: char)
    requires d < 10
    ensures IsDigit(c)
  {
    ('0' as int + d) as char
  }

  /** The decimal digits of `n`, most significant first, without leading zeros. */
  function NatToString(n: nat): (s: string)
    ensures |s| > 0
    ensures forall i :: 0 <= i < |s| ==> IsDigit(s[i])
    ensures s[0] == '0' ==> n == 0
    decreases n
  {
    if n < 10 then [DigitChar(n)] else NatToString(n / 10) + [DigitChar(n % 10)]
  }

  /** The number a string of decimal digits denotes. */
  function DecimalValue(s: string): nat
    requires forall i :: 0 <= i < |s| ==> IsDigit(s[i])
  {
    if s == [] then 0 else DecimalValue(s[..|s| - 1]) * 10 + DigitValue(s[|s| - 1])
  }

  /** Reading back the decimal rendering of `n` gives `n`. */
  lemma {:induction false} DecimalRoundTrip(n: nat)
    ensures DecimalValue(NatToString(n)) == n
    decreases n
  {
    if n >= 10 {
      DecimalRoundTrip(n / 10);
      var s := NatToString(n);
      assert s[..|s| - 1] == NatToString(n / 10);
    }
  }

  /** How a JavaScript integer is written in a template literal: decimal, with `-` when negative. */
  function IntToString(n: int): (s: string)
    ensures |s| > 0
    ensures (s[0] == '-') == (n < 0)
  {
    if n < 0 then "-" + NatToString(-n) else NatToString(n)
  }

  /** Different integers are written differently. */
  lemma IntToStringInjective(a: int, b: int)
    requires IntToString(a) == IntToString(b)
    ensures a == b
  {
    if a < 0 {
      assert NatToString(-a) == IntToString(a)[1..] == IntToString(b)[1..] == NatToString(-b);
      DecimalRoundTrip(-a);
      DecimalRoundTrip(-b);
    } else {
      DecimalRoundTrip(a);
      DecimalRoundTrip(b);
    }
  }

  /** Only the first character of a written integer can be other than a digit (it is `-` for a negative number). */
  lemma DigitsAfterSign(n: int)
    ensures forall i :: 1 <= i < |IntToString(n)| ==> IsDigit(IntToString(n)[i])
  {
    if n < 0 {
      var s := IntToString(n);
      forall i | 1 <= i < |s|
        ensures IsDigit(s[i])
      {
        assert s[i] == NatToString(-n)[i - 1];
      }
    }
  }

  /** In a written integer followed by `-`, that `-` is the first one past the first character. */
  lemma DashEndsInt(n: int, rest: string)
    ensures var s := IntToString(n) + "-" + rest;
            && s[|IntToString(n)|] == '-'
            && forall i :: 1 <= i < |IntToString(n)| ==> s[i] != '-'
  {
    DigitsAfterSign(n);
    var s := IntToString(n) + "-" + rest;
    assert forall i :: 0 <= i < |IntToString(n)| ==> s[i] == IntToString(n)[i];
  }

  /** A written integer followed by `-` can be read back off the front of a string, together with the rest. */
  lemma IntBeforeDashInjective(a: int, b: int, s: string, t: string)
    requires IntToString(a) + "-" + s == IntToString(b) + "-" + t
    ensures a == b && s == t
  {
    var x, y := IntToString(a), IntToString(b);
    var u := x + "-" + s;
    DashEndsInt(a, s);
    DashEndsInt(b, t);
    assert |x| == |y|;
    assert x == u[..|x|] == y;
    assert s == u[|x| + 1..] == t;
    IntToStringInjective(a, b);
  }
}
