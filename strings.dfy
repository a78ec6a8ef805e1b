/**
  The few Python string operations the server relies on, as pure functions:
  `str.strip()` with no argument, `str.rstrip("/")`, `sep.join(parts)` and
  the decimal rendering of a non-negative `int`.
*/
module Strings {

  /** The characters `str.isspace()` accepts, which is the set `str.strip()`
      removes when it is given no argument. */
  predicate IsWhitespace(c: char)
  {
    || '\t' <= c <= '\r'                    // tab, line feed, vertical tab, form feed, carriage return
    || '\U{1C}' <= c <= '\U{1F}'            // file, group, record and unit separators
    || c == ' '
    || c == '\U{85}' || c == '\U{A0}' || c == '\U{1680}'
    || '\U{2000}' <= c <= '\U{200A}'
    || c == '\U{2028}' || c == '\U{2029}' || c == '\U{202F}' || c == '\U{205F}' || c == '\U{3000}'
  }

  /** Nothing but whitespace (the empty string included). */
  predicate IsBlank(s: string)
  {
    forall i :: 0 <= i < |s| ==> IsWhitespace(s[i])
  }

  /** How many whitespace characters `s` starts with. */
  function LeadingWhitespace(s: string): (n: nat)
    ensures n <= |s|
    ensures forall i :: 0 <= i < n ==> IsWhitespace(s[i])
    ensures n < |s| ==> !IsWhitespace(s[n])
  {
    if s != [] && IsWhitespace(s[0]) then 1 + LeadingWhitespace(s[1..]) else 0
  }

  /** How many whitespace characters `s` ends with. */
  function TrailingWhitespace(s: string): (n: nat)
    ensures n <= |s|
    ensures forall i :: |s| - n <= i < |s| ==> IsWhitespace(s[i])
    ensures n < |s| ==> !IsWhitespace(s[|s| - 1 - n])
  {
    if s != [] && IsWhitespace(s[|s| - 1]) then 1 + TrailingWhitespace(s[..|s| - 1]) else 0
  }

  /** `s.strip()`: scan past the leading whitespace, then back over the
      trailing whitespace of what is left, and keep the slice in between. */
  function Strip(s: string): (r: string)
    ensures r == [] <==> IsBlank(s)
    ensures r != [] ==> !IsWhitespace(r[0]) && !IsWhitespace(r[|r| - 1])
    ensures LeadingWhitespace(s) + |r| <= |s|
    ensures r == s[LeadingWhitespace(s)..LeadingWhitespace(s) + |r|]
    ensures forall i :: LeadingWhitespace(s) + |r| <= i < |s| ==> IsWhitespace(s[i])
  {
    var start := LeadingWhitespace(s);
    var rest := s[start..];
    rest[..|rest| - TrailingWhitespace(rest)]
  }

  /** Stripping is determined by what it keeps: a non-empty slice `s[a..a+|t|]`
      with no whitespace at either end and only whitespace around it is what
      `Strip` returns. */
  lemma StripUnique(s: string, a: nat, t: string)
    requires a + |t| <= |s| && s[a..a + |t|] == t
    requires t != [] && !IsWhitespace(t[0]) && !IsWhitespace(t[|t| - 1])
    requires forall i :: 0 <= i < a ==> IsWhitespace(s[i])
    requires forall i :: a + |t| <= i < |s| ==> IsWhitespace(s[i])
    ensures Strip(s) == t
  {
    var start := LeadingWhitespace(s);
    assert s[a] == t[0];
    assert start == a;
    var rest := s[a..];
    var n := TrailingWhitespace(rest);
    assert rest[|t| - 1] == t[|t| - 1];
    assert n == |rest| - |t|;
  }

  /** Stripping twice is stripping once. */
  lemma StripIdempotent(s: string)
    ensures Strip(Strip(s)) == Strip(s)
  {
    var t := Strip(s);
    if t != [] {
      assert t[0..|t|] == t;
      StripUnique(t, 0, t);
    }
  }

  /** `s.rstrip("/")`: drops every trailing slash. */
  function TrimTrailingSlashes(s: string): (r: string)
    ensures |r| <= |s| && r == s[..|r|]
    ensures forall i :: |r| <= i < |s| ==> s[i] == '/'
    ensures r == [] || r[|r| - 1] != '/'
  {
    if s != [] && s[|s| - 1] == '/' then TrimTrailingSlashes(s[..|s| - 1]) else s
  }

  /** A prefix of `s` without a trailing slash, after which `s` holds only
      slashes, is what `TrimTrailingSlashes` returns. */
  lemma {:induction false} TrimTrailingSlashesUnique(s: string, t: string)
    requires |t| <= |s| && s[..|t|] == t
    requires forall i :: |t| <= i < |s| ==> s[i] == '/'
    requires t == [] || t[|t| - 1] != '/'
    ensures TrimTrailingSlashes(s) == t
  {
    if |s| > |t| {
      var s' := s[..|s| - 1];
      assert s'[..|t|] == t;
      TrimTrailingSlashesUnique(s', t);
    } else {
      assert s == t;
    }
  }

  /** Trimming twice is trimming once, and slashes appended to the input
      make no difference. */
  lemma TrimTrailingSlashesIdempotent(s: string, extra: nat)
    ensures TrimTrailingSlashes(TrimTrailingSlashes(s)) == TrimTrailingSlashes(s)
    ensures TrimTrailingSlashes(s + Slashes(extra)) == TrimTrailingSlashes(s)
  {
    var t := TrimTrailingSlashes(s);
    TrimTrailingSlashesUnique(t, t);
    var s' := s + Slashes(extra);
    assert s'[..|t|] == t;
    forall i | |t| <= i < |s'| ensures s'[i] == '/' {
      if i >= |s| { assert s'[i] == Slashes(extra)[i - |s|]; }
    }
    TrimTrailingSlashesUnique(s', t);
  }

  /** A run of `n` slashes. */
  function Slashes(n: nat): (r: string)
    ensures |r| == n && forall i :: 0 <= i < n ==> r[i] == '/'
  {
    if n == 0 then "" else Slashes(n - 1) + "/"
  }

  /** `sep.join(parts)`. */
  function Join(parts: seq<string>, sep: string): (r: string)
  {
    if |parts| == 0 then ""
    else if |parts| == 1 then parts[0]
    else parts[0] + sep + Join(parts[1..], sep)
  }

  /** Where `parts[i]` starts inside `Join(parts, sep)`: after every earlier
      part and one separator for each of them. */
  function JoinOffset(parts: seq<string>, sep: string, i: nat): (o: nat)
    requires i <= |parts|
  {
    if i == 0 then 0 else |parts[0]| + |sep| + JoinOffset(parts[1..], sep, i - 1)
  }

  /** The joined string ends with its last part: nothing follows it, and
      joining nothing gives the empty string. */
  lemma {:induction false} JoinLength(parts: seq<string>, sep: string)
    ensures |parts| == 0 ==> Join(parts, sep) == ""
    ensures |parts| > 0 ==> |Join(parts, sep)| == JoinOffset(parts, sep, |parts| - 1) + |parts[|parts| - 1]|
  {
    if |parts| > 1 {
      JoinLength(parts[1..], sep);
    }
  }

  /** Each offset is the previous one past a part and a separator. */
  lemma {:induction false} JoinOffsetStep(parts: seq<string>, sep: string, i: nat)
    requires i + 1 < |parts|
    ensures JoinOffset(parts, sep, i + 1) == JoinOffset(parts, sep, i) + |parts[i]| + |sep|
  {
    if i > 0 {
      JoinOffsetStep(parts[1..], sep, i - 1);
    }
  }

  lemma SliceAfterPrefix(a: string, b: string, lo: nat, hi: nat)
    requires lo <= hi <= |b|
    ensures (a + b)[|a| + lo..|a| + hi] == b[lo..hi]
  {
  }

  /** The joined string holds every part at its offset, so the parts
      appear in their order. */
  lemma {:induction false} JoinAt(parts: seq<string>, sep: string, i: nat)
    requires i < |parts|
    ensures JoinOffset(parts, sep, i) + |parts[i]| <= |Join(parts, sep)|
    ensures Join(parts, sep)[JoinOffset(parts, sep, i)..JoinOffset(parts, sep, i) + |parts[i]|] == parts[i]
  {
    if |parts| > 1 {
      var rest := Join(parts[1..], sep);
      assert Join(parts, sep) == parts[0] + sep + rest;
      if i > 0 {
        JoinAt(parts[1..], sep, i - 1);
        var o := JoinOffset(parts[1..], sep, i - 1);
        SliceAfterPrefix(parts[0] + sep, rest, o, o + |parts[i]|);
      }
    }
  }

  /** Between each part and the next, the joined string holds the separator. */
  lemma {:induction false} JoinSeparatorAt(parts: seq<string>, sep: string, i: nat)
    requires i + 1 < |parts|
    ensures JoinOffset(parts, sep, i + 1) == JoinOffset(parts, sep, i) + |parts[i]| + |sep| <= |Join(parts, sep)|
    ensures Join(parts, sep)[JoinOffset(parts, sep, i) + |parts[i]|..JoinOffset(parts, sep, i + 1)] == sep
  {
    JoinOffsetStep(parts, sep, i);
    var rest := Join(parts[1..], sep);
    assert Join(parts, sep) == parts[0] + sep + rest;
    if i == 0 {
      assert (parts[0] + sep + rest)[|parts[0]|..|parts[0]| + |sep|] == sep;
    } else {
      JoinSeparatorAt(parts[1..], sep, i - 1);
      var lo := JoinOffset(parts[1..], sep, i - 1) + |parts[i]|;
      SliceAfterPrefix(parts[0] + sep, rest, lo, JoinOffset(parts[1..], sep, i));
    }
  }

  /** With a non-empty separator, each part starts strictly after the end of
      the one before it. */
  lemma {:induction false} JoinOffsetOrdered(parts: seq<string>, sep: string, i: nat, k: nat)
    requires i < k < |parts| && sep != ""
    ensures JoinOffset(parts, sep, i) + |parts[i]| < JoinOffset(parts, sep, k)
  {
    JoinOffsetStep(parts, sep, k - 1);
    if i < k - 1 {
      JoinOffsetOrdered(parts, sep, i, k - 1);
    }
  }

  /** `Join` unrolled for five parts. */
  lemma JoinFive(a: string, b: string, c: string, d: string, e: string, sep: string)
    ensures Join([a, b, c, d, e], sep) == a + sep + b + sep + c + sep + d + sep + e
  {
    assert [a, b, c, d, e][1..] == [b, c, d, e];
    assert [b, c, d, e][1..] == [c, d, e];
    assert [c, d, e][1..] == [d, e];
    assert [d, e][1..] == [e];
    assert Join([d, e], sep) == d + sep + e;
    assert Join([c, d, e], sep) == c + sep + (d + sep + e);
    assert Join([b, c, d, e], sep) == b + sep + (c + sep + (d + sep + e));
  }

  /** The digit character for `d`. */
  function Digit(d: nat): (c: char)
    requires d < 10
  {
    "0123456789"[d]
  }

  predicate IsDigits(s: string)
  {
    forall i :: 0 <= i < |s| ==> '0' <= s[i] <= '9'
  }

  /** `str(n)` for a non-negative integer: its decimal digits, without
      leading zeros. */
  function NatToString(n: nat): (s: string)
    ensures s != [] && IsDigits(s)
    ensures s[0] == '0' ==> n == 0
  {
    if n < 10 then [Digit(n)] else NatToString(n / 10) + [Digit(n % 10)]
  }

  /** The value a string of decimal digits denotes. */
  function DigitsValue(s: string): (v: nat)
    requires IsDigits(s)
  {
    if s == [] then 0 else 10 * DigitsValue(s[..|s| - 1]) + (s[|s| - 1] as int - '0' as int)
  }

  /** Reading back the decimal rendering of `n` gives `n`. */
  lemma {:induction false} NatToStringRoundTrip(n: nat)
    ensures DigitsValue(NatToString(n)) == n
  {
    var s := NatToString(n);
    if n >= 10 {
      NatToStringRoundTrip(n / 10);
      assert s[..|s| - 1] == NatToString(n / 10);
    }
  }

  /** Different numbers render differently. */
  lemma NatToStringInjective(m: nat, n: nat)
    requires NatToString(m) == NatToString(n)
    ensures m == n
  {
    NatToStringRoundTrip(m);
    NatToStringRoundTrip(n);
  }
}
