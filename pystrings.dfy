/**
 * The parts of Python's str, int and pathlib behaviour that eval.py relies on:
 * `sub in s`, `s.split(sep)`, `sep.join(parts)`, `s.replace(pat, rep)`, `int(s)`,
 * `str(n)` and `str(Path(dir) / name)`.
 */
module PyStrings {
  import opened Results

  predicate IsPrefix(p: string, s: string) {
    |p| <= |s| && s[..|p|] == p
  }

  // ---------------------------------------------------------------- substring test

  /** Python's `sub in s`. */
  predicate Contains(s: string, sub: string)
    decreases |s|
  {
    IsPrefix(sub, s) || (|s| > 0 && Contains(s[1..], sub))
  }

  /** sub occurs in s starting at index i. */
  predicate OccursAt(s: string, sub: string, i: int) {
    0 <= i <= |s| - |sub| && s[i..i + |sub|] == sub
  }

  /** `sub in s` holds exactly when sub occurs at some index of s. */
  lemma {:induction false} ContainsAt(s: string, sub: string)
    ensures Contains(s, sub) <==> exists i :: OccursAt(s, sub, i)
  {
    if IsPrefix(sub, s) {
      assert OccursAt(s, sub, 0);
    } else if |s| > 0 {
      ContainsAt(s[1..], sub);
      if Contains(s[1..], sub) {
        var i :| OccursAt(s[1..], sub, i);
        assert s[1..][i..i + |sub|] == s[i + 1..i + 1 + |sub|];
        assert OccursAt(s, sub, i + 1);
      }
      if exists i :: OccursAt(s, sub, i) {
        var i :| OccursAt(s, sub, i);
        if i != 0 {
          assert s[1..][i - 1..i - 1 + |sub|] == s[i..i + |sub|];
          assert OccursAt(s[1..], sub, i - 1);
        }
      }
    }
  }

  /** A string contains every piece it is built around. */
  lemma {:induction false} ContainsInside(a: string, sub: string, b: string)
    ensures Contains(a + sub + b, sub)
  {
    if a == [] {
      assert (a + sub + b)[..|sub|] == sub;
    } else {
      ContainsInside(a[1..], sub, b);
      assert (a + sub + b)[1..] == a[1..] + sub + b;
    }
  }

  /** A non-empty needle can only occur where its first character does. */
  lemma {:induction false} ContainsFirstChar(s: string, sub: string)
    requires sub != []
    ensures Contains(s, sub) ==> sub[0] in s
    decreases |s|
  {
    if Contains(s, sub) {
      if IsPrefix(sub, s) {
        assert s[0] == sub[0];
      } else {
        ContainsFirstChar(s[1..], sub);
      }
    }
  }

  // ---------------------------------------------------------------- split and join

  /** Python's `s.split(sep)` for a one-character separator: there is always at least one field. */
  function Split(s: string, sep: char): (parts: seq<string>)
    ensures |parts| >= 1
  {
    if s == [] then [[]]
    else
      var rest := Split(s[1..], sep);
      if s[0] == sep then [[]] + rest else [[s[0]] + rest[0]] + rest[1..]
  }

  /** Python's `sep.join(parts)`. */
  function Join(sep: char, parts: seq<string>): string {
    if parts == [] then []
    else if |parts| == 1 then parts[0]
    else parts[0] + [sep] + Join(sep, parts[1..])
  }

  lemma JoinTwo(sep: char, a: string, b: string)
    ensures Join(sep, [a, b]) == a + [sep] + b
  {
    assert [a, b][1..] == [b];
  }

  /** Joining the fields of a split with the same separator gives back the string. */
  lemma {:induction false} JoinSplit(s: string, sep: char)
    ensures Join(sep, Split(s, sep)) == s
  {
    if s != [] {
      JoinSplit(s[1..], sep);
      var rest := Split(s[1..], sep);
      if s[0] == sep {
        assert ([[]] + rest)[1..] == rest;
      } else if |rest| > 1 {
        assert ([[s[0]] + rest[0]] + rest[1..])[1..] == rest[1..];
      }
    }
  }

  /**
   * The first field of a split is everything before the first separator; when there is a
   * separator, the remaining fields are the split of what follows it.
   */
  lemma {:induction false} SplitFirstField(s: string, sep: char)
    ensures var h := Split(s, sep)[0];
      && IsPrefix(h, s)
      && (|h| == |s| ==> Split(s, sep) == [s])
      && (|h| < |s| ==> s[|h|] == sep && Split(s, sep)[1..] == Split(s[|h| + 1..], sep))
  {
    if s != [] {
      SplitFirstField(s[1..], sep);
      if s[0] != sep {
        var rest := Split(s[1..], sep);
        var h' := rest[0];
        assert Split(s, sep) == [[s[0]] + h'] + rest[1..];
        assert s == [s[0]] + s[1..];
        if |h'| == |s| - 1 {
          assert rest == [s[1..]];
        } else {
          assert s[|h'| + 1] == s[1..][|h'|];
          assert s[1..][|h'| + 1..] == s[|h'| + 2..];
        }
      }
    }
  }

  lemma AppendAssoc<T>(x: seq<T>, l: seq<T>, r: seq<T>)
    ensures x + (l + r) == (x + l) + r
  {
  }

  lemma AppendHead<T>(l: seq<T>, r: seq<T>)
    requires |l| >= 1
    ensures (l + r)[0] == l[0] && (l + r)[1..] == l[1..] + r
  {
  }

  /** Splitting around a separator splits each side. */
  lemma {:induction false} SplitAround(a: string, b: string, sep: char)
    ensures Split(a + [sep] + b, sep) == Split(a, sep) + Split(b, sep)
  {
    var s := a + [sep] + b;
    if a == [] {
      assert s[0] == sep && s[1..] == b;
    } else {
      SplitAround(a[1..], b, sep);
      assert s[0] == a[0] && s[1..] == a[1..] + [sep] + b;
      var l, r := Split(a[1..], sep), Split(b, sep);
      if a[0] == sep {
        AppendAssoc([[]], l, r);
      } else {
        AppendHead(l, r);
        AppendAssoc([[a[0]] + l[0]], l[1..], r);
      }
    }
  }

  /** The first field holds no separator. */
  lemma {:induction false} SplitFirstFieldFree(s: string, sep: char)
    ensures sep !in Split(s, sep)[0]
  {
    if s != [] && s[0] != sep {
      SplitFirstFieldFree(s[1..], sep);
    }
  }

  /** A string without the separator is a single field. */
  lemma SplitWithoutSeparator(s: string, sep: char)
    requires sep !in s
    ensures Split(s, sep) == [s]
  {
    SplitFirstField(s, sep);
    var h := Split(s, sep)[0];
    if |h| < |s| {
      assert s[|h|] in s;
    }
  }

  // ---------------------------------------------------------------- replace

  /** Python's `s.replace(pat, rep)`: every non-overlapping occurrence, leftmost first. */
  function ReplaceAll(s: string, pat: string, rep: string): string
    requires pat != []
    decreases |s|
  {
    if |s| < |pat| then s
    else if s[..|pat|] == pat then rep + ReplaceAll(s[|pat|..], pat, rep)
    else [s[0]] + ReplaceAll(s[1..], pat, rep)
  }

  /** Replacing a pattern that does not occur changes nothing. */
  lemma {:induction false} ReplaceAllAbsent(s: string, pat: string, rep: string)
    requires pat != [] && !Contains(s, pat)
    ensures ReplaceAll(s, pat, rep) == s
  {
    if |s| >= |pat| {
      assert !IsPrefix(pat, s);
      ReplaceAllAbsent(s[1..], pat, rep);
    }
  }

  /** A window that holds a character foreign to the pattern is not the pattern. */
  lemma NotPatternAcross(a: string, c: char, b: string, pat: string)
    requires c !in pat && |a| < |pat| <= |a| + 1 + |b|
    ensures (a + [c] + b)[..|pat|] != pat
  {
    assert (a + [c] + b)[|a|] == c;
    assert pat[|a|] in pat;
  }

  /** No occurrence can start less than a pattern's length before a character foreign to it. */
  lemma {:induction false} ReplaceAllShortHead(a: string, c: char, b: string, pat: string, rep: string)
    requires pat != [] && c !in pat && |a| < |pat|
    ensures ReplaceAll(a + [c] + b, pat, rep) == a + [c] + ReplaceAll(b, pat, rep)
    decreases |a|
  {
    var s := a + [c] + b;
    if |s| < |pat| {
      assert ReplaceAll(b, pat, rep) == b;
    } else if a == [] {
      assert ReplaceAll(s, pat, rep) == [c] + ReplaceAll(b, pat, rep) by {
        NotPatternAcross(a, c, b, pat);
        assert s[0] == c && s[1..] == b;
      }
    } else {
      assert ReplaceAll(s, pat, rep) == [a[0]] + ReplaceAll(a[1..] + [c] + b, pat, rep) by {
        NotPatternAcross(a, c, b, pat);
        assert s[0] == a[0] && s[1..] == a[1..] + [c] + b;
      }
      ReplaceAllShortHead(a[1..], c, b, pat, rep);
      assert [a[0]] + a[1..] == a;
    }
  }

  /** A character that is not part of the pattern splits the replacement in two. */
  lemma {:induction false} ReplaceAllAround(a: string, c: char, b: string, pat: string, rep: string)
    requires pat != [] && c !in pat
    ensures ReplaceAll(a + [c] + b, pat, rep) == ReplaceAll(a, pat, rep) + [c] + ReplaceAll(b, pat, rep)
    decreases |a|
  {
    var s := a + [c] + b;
    if |a| < |pat| {
      ReplaceAllShortHead(a, c, b, pat, rep);
    } else {
      assert s[..|pat|] == a[..|pat|];
      if a[..|pat|] == pat {
        assert s[|pat|..] == a[|pat|..] + [c] + b;
        ReplaceAllAround(a[|pat|..], c, b, pat, rep);
      } else {
        assert s[1..] == a[1..] + [c] + b;
        ReplaceAllAround(a[1..], c, b, pat, rep);
      }
    }
  }

  // ---------------------------------------------------------------- decimal numbers

  predicate IsDigit(c: char) {
    '0' <= c <= '9'
  }

  predicate AllDigits(s: string) {
    forall i :: 0 <= i < |s| ==> IsDigit(s[i])
  }

  function DigitValue(c: char): nat
    requires IsDigit(c)
  {
    c as int - '0' as int
  }

  function DigitChar(n: nat): (c: char)
    requires n < 10
    ensures IsDigit(c) && DigitValue(c) == n
  {
    ('0' as int + n) as char
  }

  /** The number a string of ASCII digits denotes (leading zeros allowed). */
  function DecimalValue(s: string): nat
    requires AllDigits(s)
    decreases |s|
  {
    if s == [] then 0 else DecimalValue(s[..|s| - 1]) * 10 + DigitValue(s[|s| - 1])
  }

  /** Python's `str(n)` for a natural number. */
  function NatToString(n: nat): (s: string)
    ensures |s| >= 1 && AllDigits(s)
  {
    if n < 10 then [DigitChar(n)] else NatToString(n / 10) + [DigitChar(n % 10)]
  }

  /** Reading back the decimal form of n gives n. */
  lemma {:induction false} NatToStringRoundTrip(n: nat)
    ensures DecimalValue(NatToString(n)) == n
  {
    if n >= 10 {
      NatToStringRoundTrip(n / 10);
      var s := NatToString(n);
      assert s[..|s| - 1] == NatToString(n / 10);
    }
  }

  // ---------------------------------------------------------------- int()

  /**
   * The whitespace `int()` strips from both ends of a str: the ASCII space and "\t" to "\r",
   * and the non-ASCII characters `str.isspace` accepts (CPython turns those into spaces before
   * parsing). The ASCII separators U+001C to U+001F pass `str.isspace` but are not stripped.
   */
  predicate IsSpace(c: char) {
    || ('\t' <= c <= '\r')
    || c == ' '
    || c == '\U{85}' || c == '\U{A0}' || c == '\U{1680}'
    || ('\U{2000}' <= c <= '\U{200A}')
    || c == '\U{2028}' || c == '\U{2029}' || c == '\U{202F}' || c == '\U{205F}' || c == '\U{3000}'
  }

  function StripLeading(s: string): string
    decreases |s|
  {
    if s != [] && IsSpace(s[0]) then StripLeading(s[1..]) else s
  }

  function StripTrailing(s: string): string
    decreases |s|
  {
    if s != [] && IsSpace(s[|s| - 1]) then StripTrailing(s[..|s| - 1]) else s
  }

  lemma {:induction false} StripTrailingKeepsHead(s: string)
    requires s != [] && !IsSpace(s[0])
    ensures StripTrailing(s) != [] && StripTrailing(s)[0] == s[0]
    decreases |s|
  {
    if IsSpace(s[|s| - 1]) {
      StripTrailingKeepsHead(s[..|s| - 1]);
    }
  }

  function Strip(s: string): string {
    StripTrailing(StripLeading(s))
  }

  predicate DigitsAndUnderscores(s: string) {
    forall i :: 0 <= i < |s| ==> IsDigit(s[i]) || s[i] == '_'
  }

  /** Digits, with single underscores allowed between two digits, as base-10 `int()` accepts. */
  predicate IsIntBody(s: string) {
    && |s| >= 1
    && IsDigit(s[0])
    && IsDigit(s[|s| - 1])
    && DigitsAndUnderscores(s)
    && forall i :: 0 <= i < |s| && s[i] == '_' ==> i + 1 < |s| && IsDigit(s[i + 1])
  }

  function DropUnderscores(s: string): (r: string)
    ensures DigitsAndUnderscores(s) ==> AllDigits(r)
    ensures AllDigits(s) ==> r == s
  {
    if s == [] then [] else (if s[0] == '_' then [] else [s[0]]) + DropUnderscores(s[1..])
  }

  /** Python's `int(s)` in base 10, restricted to ASCII digits; None where Python raises ValueError. */
  function PyInt(s: string): Option<int> {
    var t := Strip(s);
    if t != [] && (t[0] == '+' || t[0] == '-') then
      var body := t[1..];
      if IsIntBody(body) then
        var v: int := DecimalValue(DropUnderscores(body));
        Some(if t[0] == '-' then -v else v)
      else None
    else if IsIntBody(t) then Some(DecimalValue(DropUnderscores(t)))
    else None
  }

  /** `int()` of a plain run of ASCII digits is the number the digits denote. */
  lemma PyIntOfDigits(d: string)
    requires |d| >= 1 && AllDigits(d)
    ensures PyInt(d) == Some(DecimalValue(d))
  {
    assert !IsSpace(d[0]) && !IsSpace(d[|d| - 1]);
    assert StripLeading(d) == d;
    assert StripTrailing(d) == d;
  }

  /** `int()` raises ValueError on a str that starts with one of the separators U+001C to U+001F. */
  lemma PyIntRejectsSeparator(s: string)
    requires s != [] && '\U{1C}' <= s[0] <= '\U{1F}'
    ensures PyInt(s).None?
  {
    StripTrailingKeepsHead(s);
    assert Strip(s) == StripTrailing(s);
    assert !IsDigit(Strip(s)[0]);
  }

  // ---------------------------------------------------------------- pathlib

  /**
   * What `Path(dir) / name` puts before the name, for `dir` in pathlib's normal form:
   * nothing for the current directory, the directory itself when it ends in "/" (the root),
   * otherwise the directory and a "/".
   */
  function DirPrefix(dir: string): string {
    if dir == "" || dir == "." then "" else if dir[|dir| - 1] == '/' then dir else dir + "/"
  }

  /** `str(Path(dir) / name)` for a plain file name as `os.listdir` returns it. */
  function JoinPath(dir: string, name: string): string {
    DirPrefix(dir) + name
  }

  /** The last "/"-field of a joined path is the file name. */
  lemma JoinPathLastComponent(dir: string, name: string)
    requires '/' !in name
    ensures var parts := Split(JoinPath(dir, name), '/'); parts[|parts| - 1] == name
  {
    SplitWithoutSeparator(name, '/');
    var p := DirPrefix(dir);
    if p != "" {
      assert p[|p| - 1] == '/';
      assert JoinPath(dir, name) == p[..|p| - 1] + ['/'] + name;
      SplitAround(p[..|p| - 1], name, '/');
      assert Split(JoinPath(dir, name), '/') == Split(p[..|p| - 1], '/') + [name];
    } else {
      assert JoinPath(dir, name) == name;
    }
  }
}
