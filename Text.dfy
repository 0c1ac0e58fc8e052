/**
 * The .NET string operations the checker relies on, over `seq<char>`.
 * Comparisons are ordinal and case mapping is ASCII (see README, "Left out").
 */
module Text {
  import opened Wrappers

  /** `Char.IsWhiteSpace`, which is also the class `\s` of .NET regular expressions:
      U+0009..U+000D, U+0085 and the Unicode separators (categories Zs, Zl, Zp). */
  predicate IsWhiteSpace(c: char) {
    || c == ' '
    || ('\t' <= c <= '\r')
    || c == '\U{0085}'
    || c == '\U{00A0}'
    || c == '\U{1680}'
    || ('\U{2000}' <= c <= '\U{200A}')
    || c == '\U{2028}'
    || c == '\U{2029}'
    || c == '\U{202F}'
    || c == '\U{205F}'
    || c == '\U{3000}'
  }

  predicate IsAsciiLetter(c: char) {
    ('a' <= c <= 'z') || ('A' <= c <= 'Z')
  }

  predicate IsAsciiDigit(c: char) {
    '0' <= c <= '9'
  }

  function UpperChar(c: char): char {
    if 'a' <= c <= 'z' then (c as int - 32) as char else c
  }

  /** `string.ToUpper()` restricted to the ASCII letters. */
  function ToUpper(s: string): string {
    seq(|s|, i requires 0 <= i < |s| => UpperChar(s[i]))
  }

  /** `s.StartsWith(prefix)` */
  predicate StartsWith(s: string, prefix: string) {
    prefix <= s
  }

  /** `s.StartsWith(prefix, StringComparison.InvariantCultureIgnoreCase)` */
  predicate StartsWithIgnoreCase(s: string, prefix: string) {
    ToUpper(prefix) <= ToUpper(s)
  }

  /** `s.EndsWith(suffix)` */
  predicate EndsWith(s: string, suffix: string) {
    |suffix| <= |s| && s[|s| - |suffix|..] == suffix
  }

  /**
   * The project helper `LucIsNullOrEmpty`, whose code is not part of this model,
   * read as `string.IsNullOrEmpty`, with `None` for null.
   */
  predicate IsNullOrEmpty(s: Option<string>) {
    s.None? || s.value == ""
  }

  /** `string.IsNullOrWhiteSpace`, with `None` for null. */
  predicate IsNullOrWhiteSpace(s: Option<string>) {
    s.None? || forall k :: 0 <= k < |s.value| ==> IsWhiteSpace(s.value[k])
  }

  /**
   * The project helper `LucIfNullOrEmptyReturn`, whose code is not part of this
   * model, read as: the value of `s`, or `fallback` when `s` is null or empty.
   */
  function IfNullOrEmpty(s: Option<string>, fallback: string): (r: string)
    ensures IsNullOrEmpty(s) ==> r == fallback
    ensures !IsNullOrEmpty(s) ==> r == s.value && r != ""
  {
    if IsNullOrEmpty(s) then fallback else s.value
  }

  /**
   * `s.Replace(pattern, replacement)`: scans from the left and replaces every
   * non-overlapping occurrence of `pattern`.
   */
  function Replace(s: string, pattern: string, replacement: string): (r: string)
    requires pattern != []
    ensures forall c :: c in r ==> c in s || c in replacement
    ensures |pattern| == 1 && pattern[0] !in replacement ==> pattern[0] !in r
    ensures pattern[0] !in s ==> r == s
    decreases |s|
  {
    if |s| < |pattern| then
      s
    else if pattern <= s then
      replacement + Replace(s[|pattern|..], pattern, replacement)
    else
      [s[0]] + Replace(s[1..], pattern, replacement)
  }

  /** `pattern` occurs in `s` at index `i`. */
  predicate OccursAt(s: string, pattern: string, i: nat) {
    i + |pattern| <= |s| && s[i..i + |pattern|] == pattern
  }

  /** An occurrence of `pattern` at the start is replaced, and the scan goes on after it. */
  lemma ReplaceLeading(pattern: string, replacement: string, rest: string)
    requires pattern != []
    ensures Replace(pattern + rest, pattern, replacement) == replacement + Replace(rest, pattern, replacement)
  {
    assert (pattern + rest)[|pattern|..] == rest;
  }

  /** Where `pattern` does not start, the first character is kept and the scan goes on after it. */
  lemma ReplaceSkip(c: char, rest: string, pattern: string, replacement: string)
    requires pattern != [] && !(pattern <= [c] + rest)
    ensures Replace([c] + rest, pattern, replacement) == [c] + Replace(rest, pattern, replacement)
  {
    assert ([c] + rest)[1..] == rest;
  }

  /** A prefix that holds no first character of `pattern` is kept as it is. */
  lemma {:induction false} ReplaceKeepsPrefix(x: string, rest: string, pattern: string, replacement: string)
    requires pattern != [] && pattern[0] !in x
    ensures Replace(x + rest, pattern, replacement) == x + Replace(rest, pattern, replacement)
    decreases |x|
  {
    if x == [] {
      assert x + rest == rest;
    } else {
      var tail := Replace(rest, pattern, replacement);
      calc {
        Replace(x + rest, pattern, replacement);
        { assert x + rest == [x[0]] + (x[1..] + rest); }
        Replace([x[0]] + (x[1..] + rest), pattern, replacement);
        { ReplaceSkip(x[0], x[1..] + rest, pattern, replacement); }
        [x[0]] + Replace(x[1..] + rest, pattern, replacement);
        { ReplaceKeepsPrefix(x[1..], rest, pattern, replacement); }
        [x[0]] + (x[1..] + tail);
        { assert x == [x[0]] + x[1..]; }
        x + tail;
      }
    }
  }

  /** A string in which `pattern` does not occur is left alone. */
  lemma {:induction false} ReplaceAbsent(s: string, pattern: string, replacement: string)
    requires pattern != []
    requires forall i: nat :: !OccursAt(s, pattern, i)
    ensures Replace(s, pattern, replacement) == s
    decreases |s|
  {
    if |s| >= |pattern| {
      assert !OccursAt(s, pattern, 0);
      assert s[0..|pattern|] == s[..|pattern|];
      forall i: nat ensures !OccursAt(s[1..], pattern, i) {
        assert !OccursAt(s, pattern, i + 1);
        if i + |pattern| <= |s| - 1 {
          assert s[1..][i..i + |pattern|] == s[i + 1..i + 1 + |pattern|];
        }
      }
      ReplaceAbsent(s[1..], pattern, replacement);
    }
  }

  /** A one-character pattern and a one-character replacement act character by character. */
  lemma {:induction false} ReplaceChar(s: string, from: char, to: char)
    ensures |Replace(s, [from], [to])| == |s|
    ensures forall i :: 0 <= i < |s| ==> Replace(s, [from], [to])[i] == if s[i] == from then to else s[i]
    decreases |s|
  {
    if s != [] {
      ReplaceChar(s[1..], from, to);
      var r := Replace(s, [from], [to]);
      assert r == [if s[0] == from then to else s[0]] + Replace(s[1..], [from], [to]);
    }
  }

  /** `s.TrimStart(c)`: drops every leading `c`. */
  function TrimStart(s: string, c: char): (r: string)
    ensures r == [] || r[0] != c
    ensures EndsWith(s, r)
    decreases |s|
  {
    if s != [] && s[0] == c then
      var r := TrimStart(s[1..], c);
      assert s[|s| - |r|..] == s[1..][|s| - 1 - |r|..];
      r
    else s
  }

  /** `s.TrimEnd(c)`: drops every trailing `c`. */
  function TrimEnd(s: string, c: char): (r: string)
    ensures r == [] || r[|r| - 1] != c
    ensures StartsWith(s, r)
    decreases |s|
  {
    if s != [] && s[|s| - 1] == c then TrimEnd(s[..|s| - 1], c) else s
  }

  /** `s.Trim(c)`: drops every leading and every trailing `c`. */
  function Trim(s: string, c: char): (r: string)
    ensures r == [] || (r[0] != c && r[|r| - 1] != c)
  {
    TrimEnd(TrimStart(s, c), c)
  }

  /** `TrimStart` drops leading `c`s and nothing else. */
  lemma {:induction false} TrimStartDrops(s: string, c: char)
    ensures forall i :: 0 <= i < |s| - |TrimStart(s, c)| ==> s[i] == c
    decreases |s|
  {
    if s != [] && s[0] == c {
      TrimStartDrops(s[1..], c);
      forall i | 1 <= i < |s| - |TrimStart(s, c)| ensures s[i] == c {
        assert s[i] == s[1..][i - 1];
      }
    }
  }

  /** `TrimEnd` drops trailing `c`s and nothing else. */
  lemma {:induction false} TrimEndDrops(s: string, c: char)
    ensures forall i :: |TrimEnd(s, c)| <= i < |s| ==> s[i] == c
    decreases |s|
  {
    if s != [] && s[|s| - 1] == c {
      TrimEndDrops(s[..|s| - 1], c);
      forall i | |TrimEnd(s, c)| <= i < |s| - 1 ensures s[i] == c {
        assert s[i] == s[..|s| - 1][i];
      }
    }
  }

  /** `s` is `k` copies of `c`, then `r`, then only `c`s. */
  predicate FramedBy(s: string, c: char, k: nat, r: string) {
    && k + |r| <= |s|
    && s[k..k + |r|] == r
    && (forall i :: 0 <= i < k ==> s[i] == c)
    && (forall i :: k + |r| <= i < |s| ==> s[i] == c)
  }

  /** `Trim` drops leading and trailing `c`s and nothing else: the input is the leading
      `c`s that `TrimStart` drops, then the result, then only `c`s. */
  lemma TrimDrops(s: string, c: char)
    ensures FramedBy(s, c, |s| - |TrimStart(s, c)|, Trim(s, c))
  {
    var t := TrimStart(s, c);
    TrimStartDrops(s, c);
    TrimEndDrops(t, c);
    Frame(s, c, t, TrimEnd(t, c));
  }

  /** Leading `c`s dropped from `s` leave `t`; trailing `c`s dropped from `t` leave `r`. */
  lemma Frame(s: string, c: char, t: string, r: string)
    requires EndsWith(s, t) && forall i :: 0 <= i < |s| - |t| ==> s[i] == c
    requires StartsWith(t, r) && forall i :: |r| <= i < |t| ==> t[i] == c
    ensures FramedBy(s, c, |s| - |t|, r)
  {
    var k := |s| - |t|;
    assert s[k..k + |r|] == t[..|r|];
    forall i | k + |r| <= i < |s| ensures s[i] == c {
      assert s[i] == t[i - k];
    }
  }

  /** Everything `Trim` keeps comes from its input. */
  lemma TrimKeeps(s: string, c: char)
    ensures forall x :: x in Trim(s, c) ==> x in s
  {
    var r := Trim(s, c);
    var k := |s| - |TrimStart(s, c)|;
    TrimDrops(s, c);
    forall x | x in r ensures x in s {
      var j :| 0 <= j < |r| && r[j] == x;
      assert s[k..k + |r|][j] == x;
    }
  }

  // ------------------------------------------------------------------
  // SymbolDisplay.FormatLiteral(value, quote: true)
  // ------------------------------------------------------------------

  /** The characters written as `\uXXXX`: the control characters and the line and
      paragraph separators. */
  predicate NeedsEscaping(c: char) {
    c <= '\U{001F}' || ('\U{007F}' <= c <= '\U{009F}') || c == '\U{2028}' || c == '\U{2029}'
  }

  /** The new-line characters, which a regular C# string literal cannot hold. */
  predicate IsNewLine(c: char) {
    c == '\n' || c == '\r' || c == '\U{0085}' || c == '\U{2028}' || c == '\U{2029}'
  }

  function HexDigit(n: nat): char
    requires n < 16
  {
    if n < 10 then ('0' as int + n) as char else ('a' as int + n - 10) as char
  }

  /** `n.ToString("x4")` */
  function Hex4(n: nat): string
    requires n < 0x1_0000
  {
    [HexDigit(n / 16 / 16 / 16), HexDigit(n / 16 / 16 % 16), HexDigit(n / 16 % 16), HexDigit(n % 16)]
  }

  /** The value of a hexadecimal digit of either case. */
  function HexValue(c: char): Option<nat> {
    if '0' <= c <= '9' then Some(c as int - '0' as int)
    else if 'a' <= c <= 'f' then Some(c as int - 'a' as int + 10)
    else if 'A' <= c <= 'F' then Some(c as int - 'A' as int + 10)
    else None
  }

  /** The simple escape sequences, by the letter after the backslash. */
  function SimpleEscape(c: char): Option<char> {
    if c == '"' then Some('"')
    else if c == '\\' then Some('\\')
    else if c == '0' then Some('\0')
    else if c == 'a' then Some('\U{0007}')
    else if c == 'b' then Some('\U{0008}')
    else if c == 'f' then Some('\U{000C}')
    else if c == 'n' then Some('\n')
    else if c == 'r' then Some('\r')
    else if c == 't' then Some('\t')
    else if c == 'v' then Some('\U{000B}')
    else None
  }

  /** One character as it is written between the quotes. */
  function EscapeChar(c: char): string {
    if c == '"' then "\\\""
    else if c == '\\' then "\\\\"
    else if c == '\0' then "\\0"
    else if c == '\U{0007}' then "\\a"
    else if c == '\U{0008}' then "\\b"
    else if c == '\U{000C}' then "\\f"
    else if c == '\n' then "\\n"
    else if c == '\r' then "\\r"
    else if c == '\t' then "\\t"
    else if c == '\U{000B}' then "\\v"
    else if NeedsEscaping(c) then "\\u" + Hex4(c as int)
    else [c]
  }

  function Escape(s: string): string
    decreases |s|
  {
    if s == [] then "" else EscapeChar(s[0]) + Escape(s[1..])
  }

  /** `SymbolDisplay.FormatLiteral(s, true)`: `s` as a quoted C# string literal. */
  function FormatLiteral(s: string): string {
    "\"" + Escape(s) + "\""
  }

  /** The value a regular C# string literal's body denotes; `None` for a body that is
      not well formed (a bare quote or new line, or an unknown escape). */
  function Unescape(t: string): Option<string>
    decreases |t|
  {
    if t == [] then Some("")
    else if t[0] != '\\' then
      if t[0] == '"' || IsNewLine(t[0]) then None
      else match Unescape(t[1..]) case None => None case Some(rest) => Some([t[0]] + rest)
    else if |t| < 2 then None
    else if t[1] == 'u' then
      if |t| < 6 || HexValue(t[2]).None? || HexValue(t[3]).None? || HexValue(t[4]).None? || HexValue(t[5]).None? then None
      else
        var v := ((HexValue(t[2]).value * 16 + HexValue(t[3]).value) * 16 + HexValue(t[4]).value) * 16 + HexValue(t[5]).value;
        if 0xD800 <= v < 0xE000 then None
        else match Unescape(t[6..]) case None => None case Some(rest) => Some([v as char] + rest)
    else
      match SimpleEscape(t[1])
      case None => None
      case Some(c) => match Unescape(t[2..]) case None => None case Some(rest) => Some([c] + rest)
  }

  /** The value a quoted C# string literal denotes. */
  function ReadLiteral(t: string): Option<string> {
    if |t| < 2 || t[0] != '"' || t[|t| - 1] != '"' then None else Unescape(t[1..|t| - 1])
  }

  lemma {:induction false} HexRoundTrip(n: nat)
    requires n < 0x1_0000
    ensures var h := Hex4(n);
            && HexValue(h[0]).Some? && HexValue(h[1]).Some? && HexValue(h[2]).Some? && HexValue(h[3]).Some?
            && ((HexValue(h[0]).value * 16 + HexValue(h[1]).value) * 16 + HexValue(h[2]).value) * 16 + HexValue(h[3]).value == n
  {
    var h := Hex4(n);
    forall k: nat | k < 16 ensures HexValue(HexDigit(k)) == Some(k) {
    }
    var m1 := n / 16;
    var m2 := m1 / 16;
    assert n == m1 * 16 + n % 16;
    assert m1 == m2 * 16 + m1 % 16;
    assert m2 == m2 / 16 * 16 + m2 % 16;
  }

  lemma {:induction false} EscapeCharReadsBack(c: char, rest: string)
    ensures Unescape(EscapeChar(c) + rest) ==
              match Unescape(rest) case None => None case Some(r) => Some([c] + r)
  {
    var e := EscapeChar(c);
    if NeedsEscaping(c) && e == "\\u" + Hex4(c as int) {
      HexRoundTrip(c as int);
      assert (e + rest)[6..] == rest;
    } else if |e| == 2 {
      assert (e + rest)[2..] == rest;
    } else {
      assert (e + rest)[1..] == rest;
    }
  }

  /** The body `FormatLiteral` writes between the quotes reads back as its input. */
  lemma {:induction false} EscapeReadsBack(s: string)
    ensures Unescape(Escape(s)) == Some(s)
    decreases |s|
  {
    if s != [] {
      EscapeReadsBack(s[1..]);
      EscapeCharReadsBack(s[0], Escape(s[1..]));
      assert Escape(s) == EscapeChar(s[0]) + Escape(s[1..]);
      assert [s[0]] + s[1..] == s;
    }
  }

  /** Round trip: the literal `FormatLiteral` writes denotes exactly the string it was given. */
  lemma FormatLiteralReadsBack(s: string)
    ensures ReadLiteral(FormatLiteral(s)) == Some(s)
  {
    var t := FormatLiteral(s);
    assert t[1..|t| - 1] == Escape(s);
    EscapeReadsBack(s);
  }
}
