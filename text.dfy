/** The pieces of Rust's `str` API that the core relies on, written over
    `string` (a sequence of Unicode scalar values, like Rust's `char`). */
module Text {
  import opened Wrappers

  /** Rust's `char::is_whitespace`: the Unicode White_Space property. */
  predicate IsWhitespace(c: char) {
    var n := c as int;
    (9 <= n <= 13) || n == 32 || n == 0x85 || n == 0xA0 || n == 0x1680
    || (0x2000 <= n <= 0x200A) || n == 0x2028 || n == 0x2029 || n == 0x202F
    || n == 0x205F || n == 0x3000
  }

  predicate AllWhitespace(s: string) {
    forall i :: 0 <= i < |s| ==> IsWhitespace(s[i])
  }

  predicate NoWhitespace(s: string) {
    forall i :: 0 <= i < |s| ==> !IsWhitespace(s[i])
  }

  /** `str::trim_start`: drops the leading whitespace and nothing else
      (see TrimStartSpec). */
  function TrimStart(s: string): string {
    if s != [] && IsWhitespace(s[0]) then TrimStart(s[1..]) else s
  }

  /** `str::trim_end`: drops the trailing whitespace and nothing else
      (see TrimEndSpec). */
  function TrimEnd(s: string): string {
    if s != [] && IsWhitespace(s[|s| - 1]) then TrimEnd(s[..|s| - 1]) else s
  }

  /** What `trim_start` keeps is a suffix of the input that starts with a
      non-whitespace character, and what it drops is all whitespace. */
  lemma {:induction false} TrimStartSpec(s: string)
    ensures var r := TrimStart(s);
            |r| <= |s| && r == s[|s| - |r|..]
            && (r == [] || !IsWhitespace(r[0]))
            && AllWhitespace(s[..|s| - |r|])
    decreases |s|
  {
    if s != [] && IsWhitespace(s[0]) {
      var r := TrimStart(s[1..]);
      TrimStartSpec(s[1..]);
      DropLeadingWhitespace(s, |s| - 1 - |r|);
    }
  }

  /** What `trim_end` keeps is a prefix of the input that ends with a
      non-whitespace character, and what it drops is all whitespace. */
  lemma {:induction false} TrimEndSpec(s: string)
    ensures var r := TrimEnd(s);
            |r| <= |s| && r == s[..|r|]
            && (r == [] || !IsWhitespace(r[|r| - 1]))
            && AllWhitespace(s[|r|..])
    decreases |s|
  {
    if s != [] && IsWhitespace(s[|s| - 1]) {
      var r := TrimEnd(s[..|s| - 1]);
      TrimEndSpec(s[..|s| - 1]);
      DropTrailingWhitespace(s, |r|);
    }
  }

  /** Dropping `m` whitespace characters after a leading whitespace one. */
  lemma DropLeadingWhitespace(s: string, m: nat)
    requires s != [] && IsWhitespace(s[0]) && m <= |s| - 1
    requires AllWhitespace(s[1..][..m])
    ensures s[1..][m..] == s[m + 1..]
    ensures AllWhitespace(s[..m + 1])
  {
    var w := s[..m + 1];
    forall i | 0 <= i < |w| ensures IsWhitespace(w[i]) {
      if i > 0 { assert w[i] == s[1..][..m][i - 1]; }
    }
  }

  /** Keeping the first `n` characters before a trailing whitespace one. */
  lemma DropTrailingWhitespace(s: string, n: nat)
    requires s != [] && IsWhitespace(s[|s| - 1]) && n <= |s| - 1
    requires AllWhitespace(s[..|s| - 1][n..])
    ensures s[..|s| - 1][..n] == s[..n]
    ensures AllWhitespace(s[n..])
  {
    var w := s[n..];
    forall i | 0 <= i < |w| ensures IsWhitespace(w[i]) {
      if i < |w| - 1 { assert w[i] == s[..|s| - 1][n..][i]; }
    }
  }

  /** `str::trim`: both ends stripped; empty exactly when the input is
      all whitespace. */
  function Trim(s: string): (r: string)
    ensures |r| <= |s|
    ensures r == [] || (!IsWhitespace(r[0]) && !IsWhitespace(r[|r| - 1]))
    ensures r == [] <==> AllWhitespace(s)
  {
    var t := TrimStart(s);
    TrimStartSpec(s);
    TrimEndSpec(t);
    TrimEnd(t)
  }

  /** A string is blank when `s.trim().is_empty()`. */
  predicate IsBlank(s: string) {
    Trim(s) == []
  }

  lemma {:induction false} TrimStartOfTrimmed(s: string)
    requires s == [] || !IsWhitespace(s[0])
    ensures TrimStart(s) == s
  {
  }

  lemma {:induction false} TrimEndOfTrimmed(s: string)
    requires s == [] || !IsWhitespace(s[|s| - 1])
    ensures TrimEnd(s) == s
  {
  }

  /** Trimming twice is trimming once. */
  lemma TrimIdempotent(s: string)
    ensures Trim(Trim(s)) == Trim(s)
  {
    var r := Trim(s);
    assert r == [] || !IsWhitespace(r[0]);
    TrimStartOfTrimmed(r);
    assert r == [] || !IsWhitespace(r[|r| - 1]);
    TrimEndOfTrimmed(r);
  }

  /** Every character of the trimmed string is a character of the input. */
  lemma {:induction false} TrimStartChars(s: string, c: char)
    requires c in TrimStart(s)
    ensures c in s
  {
    var r := TrimStart(s);
    TrimStartSpec(s);
    var i :| 0 <= i < |r| && r[i] == c;
    assert s[|s| - |r| + i] == c;
  }

  function StartsWith(s: string, prefix: string): bool {
    |prefix| <= |s| && s[..|prefix|] == prefix
  }

  /** A string starts with anything it is made by extending. */
  lemma StartsWithConcat(p: string, x: string)
    ensures StartsWith(p + x, p)
  {
    assert (p + x)[..|p|] == p;
  }

  /** Starting with `p + q` means starting with `p`. */
  lemma StartsWithShorter(s: string, p: string, q: string)
    ensures StartsWith(s, p + q) ==> StartsWith(s, p)
  {
    if StartsWith(s, p + q) {
      assert s[..|p|] == s[..|p + q|][..|p|];
    }
  }

  function EndsWith(s: string, suffix: string): bool {
    |suffix| <= |s| && s[|s| - |suffix|..] == suffix
  }

  /** `pattern` occurs in `s` starting at index `i`. */
  predicate OccursAt(s: string, pattern: string, i: int) {
    0 <= i && i + |pattern| <= |s| && s[i..i + |pattern|] == pattern
  }

  lemma OccursAtShift(s: string, pattern: string, i: nat)
    requires s != []
    ensures OccursAt(s[1..], pattern, i) <==> OccursAt(s, pattern, i + 1)
  {
    if 0 <= i && i + |pattern| <= |s| - 1 {
      assert s[1..][i..i + |pattern|] == s[i + 1..i + 1 + |pattern|];
    }
  }

  /** `str::contains` for a string pattern: true exactly when the pattern
      occurs at some index. */
  function Contains(s: string, pattern: string): (b: bool)
    ensures b <==> exists i :: OccursAt(s, pattern, i)
  {
    if StartsWith(s, pattern) then
      assert OccursAt(s, pattern, 0);
      true
    else if s == [] then
      false
    else
      var b := Contains(s[1..], pattern);
      assert b <==> exists i :: OccursAt(s, pattern, i) by {
        if b {
          var j :| OccursAt(s[1..], pattern, j);
          OccursAtShift(s, pattern, j);
        } else {
          forall i ensures !OccursAt(s, pattern, i) {
            if i >= 1 {
              OccursAtShift(s, pattern, i - 1);
            }
          }
        }
      }
      b
  }

  /** Rust's `to_ascii_lowercase` on one character. */
  function AsciiLower(c: char): char {
    if 'A' <= c <= 'Z' then (c as int + 32) as char else c
  }

  function AsciiUpper(c: char): char {
    if 'a' <= c <= 'z' then (c as int - 32) as char else c
  }

  /** `str::to_lowercase`, restricted to the ASCII letters. */
  function ToLower(s: string): (r: string)
    ensures |r| == |s| && forall i :: 0 <= i < |s| ==> r[i] == AsciiLower(s[i])
  {
    seq(|s|, i requires 0 <= i < |s| => AsciiLower(s[i]))
  }

  /** Rust's `char::to_uppercase` on the ASCII letters and on the
      non-ASCII characters whose upper case can help spell GET or POST:
      'ſ' (to "S") and the ligatures 'ﬅ' and 'ﬆ' (to "ST"). Every other
      character is kept as it is, where Rust would upper-case other
      non-ASCII letters too (for example 'ı' to "I" or 'ﬁ' to "FI"). */
  function UpperChars(c: char): (u: string)
    ensures |u| >= 1
  {
    if 'a' <= c <= 'z' then [AsciiUpper(c)]
    else if c == 'ſ' then "S"
    else if c == 'ﬅ' || c == 'ﬆ' then "ST"
    else [c]
  }

  /** `str::to_uppercase`, with the character mapping above. */
  function ToUpper(s: string): (r: string)
    ensures |r| >= |s|
  {
    if s == [] then [] else UpperChars(s[0]) + ToUpper(s[1..])
  }

  /** On ASCII text the upper case is the character-wise ASCII upper case. */
  lemma {:induction false} ToUpperAscii(s: string)
    requires forall i :: 0 <= i < |s| ==> s[i] < 128 as char
    ensures |ToUpper(s)| == |s|
    ensures forall i :: 0 <= i < |s| ==> ToUpper(s)[i] == AsciiUpper(s[i])
  {
    if s != [] {
      ToUpperAscii(s[1..]);
      assert UpperChars(s[0]) == [AsciiUpper(s[0])];
      forall i | 0 <= i < |s| ensures ToUpper(s)[i] == AsciiUpper(s[i]) {
        if i > 0 {
          assert ToUpper(s)[i] == ToUpper(s[1..])[i - 1];
        }
      }
    }
  }

  predicate IsAsciiDigit(c: char) {
    '0' <= c <= '9'
  }

  predicate IsAsciiAlphanumeric(c: char) {
    ('a' <= c <= 'z') || ('A' <= c <= 'Z') || IsAsciiDigit(c)
  }

  // ---------------------------------------------------------------------
  // Joining and splitting

  /** `slice::join(sep)`. */
  function Join(parts: seq<string>, sep: string): string {
    if |parts| == 0 then []
    else if |parts| == 1 then parts[0]
    else parts[0] + sep + Join(parts[1..], sep)
  }

  /** `str::split(sep)` for one separator character: always at least one
      piece, and no piece contains the separator. */
  function Split(s: string, sep: char): (parts: seq<string>)
    ensures |parts| >= 1
    ensures forall k :: 0 <= k < |parts| ==> sep !in parts[k]
  {
    if s == [] then [[]]
    else if s[0] == sep then [[]] + Split(s[1..], sep)
    else
      var rest := Split(s[1..], sep);
      [[s[0]] + rest[0]] + rest[1..]
  }

  /** Splitting and joining back with the same separator is the identity. */
  lemma {:induction false} JoinSplit(s: string, sep: char)
    ensures Join(Split(s, sep), [sep]) == s
  {
    if s == [] {
    } else if s[0] == sep {
      JoinSplit(s[1..], sep);
      var rest := Split(s[1..], sep);
      assert Split(s, sep) == [[]] + rest;
      assert ([[]] + rest)[1..] == rest;
    } else {
      JoinSplit(s[1..], sep);
      var rest := Split(s[1..], sep);
      var parts := [[s[0]] + rest[0]] + rest[1..];
      assert Split(s, sep) == parts;
      if |rest| == 1 {
        assert Join(parts, [sep]) == [s[0]] + rest[0];
      } else {
        assert parts[1..] == rest[1..];
        assert Join(rest, [sep]) == rest[0] + [sep] + Join(rest[1..], [sep]);
        assert Join(parts, [sep]) == [s[0]] + rest[0] + [sep] + Join(rest[1..], [sep]);
      }
    }
  }

  /** A string without the separator is split into itself alone. */
  lemma {:induction false} SplitWithoutSeparator(s: string, sep: char)
    requires sep !in s
    ensures Split(s, sep) == [s]
  {
    if s != [] {
      SplitWithoutSeparator(s[1..], sep);
      assert [s[0]] + s[1..] == s;
    }
  }

  function StripCr(line: string): string {
    if line != [] && line[|line| - 1] == '\r' then line[..|line| - 1] else line
  }

  /** `str::lines`: pieces between '\n'; a '\r' right before a '\n' is
      dropped; the piece after a final '\n' (or of an empty string) is not a
      line. */
  function Lines(s: string): (lines: seq<string>)
    ensures forall k :: 0 <= k < |lines| ==> '\n' !in lines[k]
  {
    var parts := Split(s, '\n');
    var n := |parts|;
    var body := seq(n - 1, i requires 0 <= i < n - 1 => StripCr(parts[i]));
    assert forall k :: 0 <= k < n - 1 ==> '\n' !in body[k] by {
      forall k | 0 <= k < n - 1 ensures '\n' !in body[k] {
        assert '\n' !in parts[k];
        assert body[k] == StripCr(parts[k]);
        assert forall c :: c in StripCr(parts[k]) ==> c in parts[k];
      }
    }
    body + (if parts[n - 1] == [] then [] else [parts[n - 1]])
  }

  /** `str::split_whitespace`: the maximal runs of non-whitespace, in order. */
  function SplitWhitespace(s: string): seq<string>
    decreases |s|
  {
    var t := TrimStart(s);
    TrimStartSpec(s);
    if t == [] then []
    else
      var w := TokenLength(t);
      [t[..w]] + SplitWhitespace(t[w..])
  }

  /** Every piece `split_whitespace` yields is non-empty and holds no
      whitespace. */
  lemma {:induction false} SplitWhitespaceTokens(s: string)
    ensures forall k :: 0 <= k < |SplitWhitespace(s)| ==>
              SplitWhitespace(s)[k] != [] && NoWhitespace(SplitWhitespace(s)[k])
    decreases |s|
  {
    var t := TrimStart(s);
    TrimStartSpec(s);
    if t != [] {
      var w := TokenLength(t);
      var first, rest := t[..w], SplitWhitespace(t[w..]);
      SplitWhitespaceTokens(t[w..]);
      var tokens := SplitWhitespace(s);
      assert tokens == [first] + rest;
      forall k | 0 <= k < |tokens|
        ensures tokens[k] != [] && NoWhitespace(tokens[k])
      {
        ConsAt(first, rest, k);
      }
    }
  }

  /** Indexing a sequence with one element put in front. */
  lemma ConsAt<T>(first: T, rest: seq<T>, k: nat)
    requires k <= |rest|
    ensures ([first] + rest)[k] == if k == 0 then first else rest[k - 1]
  {
  }

  /** The length of the leading run of non-whitespace characters. */
  function TokenLength(s: string): (n: nat)
    requires s != [] && !IsWhitespace(s[0])
    ensures 1 <= n <= |s|
    ensures NoWhitespace(s[..n])
    ensures n == |s| || IsWhitespace(s[n])
  {
    if |s| == 1 || IsWhitespace(s[1]) then 1
    else
      var m := TokenLength(s[1..]);
      assert s[..1 + m] == [s[0]] + s[1..][..m];
      1 + m
  }

  /** `str::replace(pattern, with)`: every non-overlapping occurrence, scanned
      left to right. */
  function ReplaceAll(s: string, pattern: string, with: string): (r: string)
    requires pattern != []
    decreases |s|
  {
    if |s| < |pattern| then s
    else if s[..|pattern|] == pattern then with + ReplaceAll(s[|pattern|..], pattern, with)
    else [s[0]] + ReplaceAll(s[1..], pattern, with)
  }

  /** Replacing a pattern that does not occur changes nothing. */
  lemma {:induction false} ReplaceAllAbsent(s: string, pattern: string, with: string)
    requires pattern != [] && !Contains(s, pattern)
    ensures ReplaceAll(s, pattern, with) == s
  {
    if |s| >= |pattern| {
      assert !OccursAt(s, pattern, 0);
      assert !Contains(s[1..], pattern) by {
        forall j ensures !OccursAt(s[1..], pattern, j) {
          if j >= 0 {
            OccursAtShift(s, pattern, j);
          }
        }
      }
      ReplaceAllAbsent(s[1..], pattern, with);
    }
  }

  // ---------------------------------------------------------------------
  // Decimal numbers

  function DigitChar(d: nat): (c: char)
    requires d < 10
    ensures IsAsciiDigit(c) && DigitValue(c) == d
  {
    (48 + d) as char
  }

  function DigitValue(c: char): nat
    requires IsAsciiDigit(c)
  {
    c as int - 48
  }

  /** `Display` of an unsigned integer: its decimal digits, no sign, no
      leading zeros. */
  function NatToString(n: nat): (s: string)
    ensures s != [] && forall i :: 0 <= i < |s| ==> IsAsciiDigit(s[i])
    ensures |s| > 1 ==> s[0] != '0'
  {
    if n < 10 then [DigitChar(n)] else NatToString(n / 10) + [DigitChar(n % 10)]
  }

  /** `Display` of a signed integer. */
  function IntToString(i: int): (s: string)
    ensures s != [] && (i < 0 <==> s[0] == '-')
  {
    if i < 0 then "-" + NatToString(-i) else NatToString(i)
  }

  predicate AllDigits(s: string) {
    forall i :: 0 <= i < |s| ==> IsAsciiDigit(s[i])
  }

  /** The value of a run of decimal digits. */
  function DigitsValue(s: string): nat
    requires AllDigits(s)
  {
    if s == [] then 0 else 10 * DigitsValue(s[..|s| - 1]) + DigitValue(s[|s| - 1])
  }

  /** Reading back the decimal form gives the number: the two are inverses. */
  lemma {:induction false} DigitsValueOfNatToString(n: nat)
    ensures DigitsValue(NatToString(n)) == n
  {
    if n >= 10 {
      var s := NatToString(n);
      DigitsValueOfNatToString(n / 10);
      assert s[..|s| - 1] == NatToString(n / 10);
    }
  }

  // ---------------------------------------------------------------------
  // Lexicographic order (Rust's `Ord` for `str`, which compares the UTF-8
  // bytes; that agrees with comparing the scalar values one by one)

  predicate LexLe(a: string, b: string) {
    a == [] || (b != [] && (a[0] < b[0] || (a[0] == b[0] && LexLe(a[1..], b[1..]))))
  }

  lemma {:induction false} LexLeTotal(a: string, b: string)
    ensures LexLe(a, b) || LexLe(b, a)
  {
    if a != [] && b != [] && a[0] == b[0] {
      LexLeTotal(a[1..], b[1..]);
    }
  }

  lemma {:induction false} LexLeTransitive(a: string, b: string, c: string)
    requires LexLe(a, b) && LexLe(b, c)
    ensures LexLe(a, c)
  {
    if a != [] && b != [] && c != [] && a[0] == b[0] == c[0] {
      LexLeTransitive(a[1..], b[1..], c[1..]);
    }
  }

  lemma {:induction false} LexLeAntisymmetric(a: string, b: string)
    requires LexLe(a, b) && LexLe(b, a)
    ensures a == b
  {
    if a != [] && b != [] {
      LexLeAntisymmetric(a[1..], b[1..]);
      assert a == [a[0]] + a[1..];
      assert b == [b[0]] + b[1..];
    }
  }

  /** At the first difference, the smaller character decides. */
  lemma {:induction false} LexLeFirstDifference(a: string, b: string, k: nat)
    requires k < |a| && k < |b| && a[..k] == b[..k] && a[k] < b[k]
    ensures LexLe(a, b) && !LexLe(b, a)
  {
    if k > 0 {
      assert a[0] == a[..k][0] == b[..k][0] == b[0];
      assert a[1..][..k - 1] == a[..k][1..] == b[..k][1..] == b[1..][..k - 1];
      LexLeFirstDifference(a[1..], b[1..], k - 1);
    }
  }

  lemma {:induction false} LexLeReflexive(a: string)
    ensures LexLe(a, a)
  {
    if a != [] {
      LexLeReflexive(a[1..]);
    }
  }
}
