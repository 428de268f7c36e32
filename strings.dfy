/** The Python `str` operations the backend relies on: strip, lower, split on a
    separator, join, int(str) and str(int), and the ObjectId string check. */
module Strings {
  import opened Wrappers

  /** Python's str.isspace() for one character. */
  predicate IsSpace(c: char) {
    c == ' ' || ('\t' <= c <= '\r') || ('\U{1C}' <= c <= '\U{1F}') ||
    c == '\U{85}' || c == '\U{A0}' || c == '\U{1680}' || ('\U{2000}' <= c <= '\U{200A}') ||
    c == '\U{2028}' || c == '\U{2029}' || c == '\U{202F}' || c == '\U{205F}' || c == '\U{3000}'
  }

  predicate AllSpace(s: string) {
    forall i :: 0 <= i < |s| ==> IsSpace(s[i])
  }

  // The trimming functions carry no postconditions of their own: their
  // properties are the lemmas below, so that code which only mentions a
  // stripped string does not pay for them.

  function TrimStart(s: string): string {
    if s != [] && IsSpace(s[0]) then TrimStart(s[1..]) else s
  }

  function TrimEnd(s: string): string {
    if s != [] && IsSpace(s[|s| - 1]) then TrimEnd(s[..|s| - 1]) else s
  }

  /** TrimStart removes a run of whitespace from the front and stops at a
      non-space character. */
  lemma {:induction false} TrimStartSpec(s: string)
    ensures var r := TrimStart(s);
      |r| <= |s| && r == s[|s| - |r|..] && AllSpace(s[..|s| - |r|]) &&
      (r != [] ==> !IsSpace(r[0]))
  {
    if s != [] && IsSpace(s[0]) {
      var t := s[1..];
      var r := TrimStart(t);
      TrimStartSpec(t);
      assert TrimStart(s) == r;
      assert t[|t| - |r|..] == s[|s| - |r|..];
      var cut := s[..|s| - |r|];
      var cutT := t[..|t| - |r|];
      forall k | 0 <= k < |cut|
        ensures IsSpace(cut[k])
      {
        if k > 0 {
          assert cut[k] == cutT[k - 1];
        }
      }
    }
  }

  /** TrimEnd removes a run of whitespace from the back and stops at a
      non-space character. */
  lemma {:induction false} TrimEndSpec(s: string)
    ensures var r := TrimEnd(s);
      |r| <= |s| && r == s[..|r|] && AllSpace(s[|r|..]) &&
      (r != [] ==> !IsSpace(r[|r| - 1]))
  {
    if s != [] && IsSpace(s[|s| - 1]) {
      var t := s[..|s| - 1];
      var r := TrimEnd(t);
      TrimEndSpec(t);
      assert TrimEnd(s) == r;
      assert t[..|r|] == s[..|r|];
      var cut := s[|r|..];
      var cutT := t[|r|..];
      forall k | 0 <= k < |cut|
        ensures IsSpace(cut[k])
      {
        if k < |cutT| {
          assert cut[k] == cutT[k];
        }
      }
    }
  }

  /** Python's str.strip(). */
  function Strip(s: string): string {
    TrimEnd(TrimStart(s))
  }

  /** What strip keeps is a slice of the input that neither starts nor ends
      with whitespace, and what it removes at either end is whitespace. */
  lemma StripSpec(s: string)
    ensures |Strip(s)| <= |s|
    ensures Strip(s) != [] ==> !IsSpace(Strip(s)[0]) && !IsSpace(Strip(s)[|Strip(s)| - 1])
    ensures exists i, j :: 0 <= i <= j <= |s| && Strip(s) == s[i..j] && AllSpace(s[..i]) && AllSpace(s[j..])
  {
    var t := TrimStart(s);
    var r := TrimEnd(t);
    var i := |s| - |t|;
    TrimStartSpec(s);
    TrimEndSpec(t);
    assert r == s[i..i + |r|];
    assert s[i + |r|..] == t[|r|..];
    if r != [] {
      assert r[0] == t[0];
    }
  }

  /** A string is blank (Python `not s.strip()`) exactly when every character is
      whitespace. */
  lemma {:induction false} StripEmptyIffAllSpace(s: string)
    ensures Strip(s) == [] <==> AllSpace(s)
  {
    var t := TrimStart(s);
    TrimStartSpec(s);
    TrimEndSpec(t);
    if !AllSpace(s) {
      var k :| 0 <= k < |s| && !IsSpace(s[k]);
      AllSpacePrefix(s, |s| - |t|);
      assert t != [] && !IsSpace(t[0]);
    }
  }

  lemma AllSpacePrefix(s: string, m: nat)
    requires m <= |s| && AllSpace(s[..m])
    ensures forall i :: 0 <= i < m ==> IsSpace(s[i])
  {
    forall i | 0 <= i < m ensures IsSpace(s[i]) {
      assert s[..m][i] == s[i];
    }
  }

  /** A string that neither starts nor ends with whitespace is its own strip. */
  lemma StripUnpadded(s: string)
    requires s != [] ==> !IsSpace(s[0]) && !IsSpace(s[|s| - 1])
    ensures Strip(s) == s
  {
    assert TrimStart(s) == s;
  }

  /** Stripping twice is the same as stripping once. */
  lemma StripIdempotent(s: string)
    ensures Strip(Strip(s)) == Strip(s)
  {
    StripSpec(s);
    StripUnpadded(Strip(s));
  }

  function LowerChar(c: char): char {
    if 'A' <= c <= 'Z' then (c as int + 32) as char else c
  }

  /** Python's str.lower(), on the ASCII letters. */
  function Lower(s: string): (r: string)
    ensures |r| == |s|
    ensures forall i :: 0 <= i < |s| ==> r[i] == LowerChar(s[i])
  {
    seq(|s|, i requires 0 <= i < |s| => LowerChar(s[i]))
  }

  lemma LowerIdempotent(s: string)
    ensures Lower(Lower(s)) == Lower(s)
  {
  }

  predicate IsDigit(c: char) {
    '0' <= c <= '9'
  }

  /** Python's str.isdigit() on ASCII: non-empty and every character a digit. */
  predicate IsDigits(s: string) {
    |s| > 0 && forall i :: 0 <= i < |s| ==> IsDigit(s[i])
  }

  predicate IsHexDigit(c: char) {
    IsDigit(c) || ('a' <= c <= 'f') || ('A' <= c <= 'F')
  }

  /** bson's ObjectId(s) for a string s: it accepts exactly the 24-character hex
      strings, and its str() is the lower-case form. */
  function ParseObjectId(s: string): (r: Option<string>)
    ensures r.Some? <==> |s| == 24 && forall i :: 0 <= i < |s| ==> IsHexDigit(s[i])
    ensures r.Some? ==> IsCanonicalObjectId(r.value) && Lower(r.value) == r.value
  {
    if |s| == 24 && forall i :: 0 <= i < |s| ==> IsHexDigit(s[i]) then Some(Lower(s)) else None
  }

  /** The str() of an ObjectId: 24 lower-case hex digits. */
  predicate IsCanonicalObjectId(s: string) {
    |s| == 24 && forall i :: 0 <= i < |s| ==> IsDigit(s[i]) || ('a' <= s[i] <= 'f')
  }

  /** An id that is already canonical parses to itself. */
  lemma ParseCanonicalObjectId(s: string)
    requires IsCanonicalObjectId(s)
    ensures ParseObjectId(s) == Some(s)
  {
    assert Lower(s) == s;
  }

  function StartsWith(s: string, prefix: string): bool {
    |prefix| <= |s| && s[..|prefix|] == prefix
  }

  /** t occurs in s at index i. */
  predicate OccursAt(s: string, t: string, i: nat) {
    i + |t| <= |s| && s[i..i + |t|] == t
  }

  /** Python's `t in s` for strings. */
  predicate Contains(s: string, t: string) {
    exists i: nat | i <= |s| :: OccursAt(s, t, i)
  }

  /** A text with a character that s lacks does not occur in s. */
  lemma AbsentCharNotContained(s: string, t: string, k: nat)
    requires k < |t| && t[k] !in s
    ensures !Contains(s, t)
  {
    forall i: nat | i + |t| <= |s|
      ensures !OccursAt(s, t, i)
    {
      assert s[i..i + |t|][k] == s[i + k];
    }
  }

  /** A lower-cased string holds no upper-case letter, so it never contains a
      text that has one. */
  lemma LowerContainsNoUpper(s: string, t: string, k: nat)
    requires k < |t| && 'A' <= t[k] <= 'Z'
    ensures !Contains(Lower(s), t)
  {
    var l := Lower(s);
    forall i: nat | i + |t| <= |l|
      ensures !OccursAt(l, t, i)
    {
      assert l[i..i + |t|][k] == l[i + k];
      assert !('A' <= l[i + k] <= 'Z');
    }
  }

  // ---------------------------------------------------------------------------
  // Splitting on one separator character and joining back.

  function IndexOf(s: string, c: char): (r: Option<nat>)
    ensures r.Some? ==> r.value < |s| && s[r.value] == c && c !in s[..r.value]
    ensures r.None? ==> c !in s
  {
    if s == [] then None
    else if s[0] == c then Some(0)
    else match IndexOf(s[1..], c)
      case None => None
      case Some(k) => assert s[..k + 1] == [s[0]] + s[1..][..k]; Some(k + 1)
  }

  /** Python's s.split(sep) for a one-character separator. */
  function Split(s: string, sep: char): (r: seq<string>)
    ensures |r| >= 1
    ensures forall k :: 0 <= k < |r| ==> sep !in r[k]
    decreases |s|
  {
    match IndexOf(s, sep)
    case None => [s]
    case Some(i) => [s[..i]] + Split(s[i + 1..], sep)
  }

  /** Python's sep.join(parts). */
  function Join(parts: seq<string>, sep: string): string {
    if parts == [] then ""
    else if |parts| == 1 then parts[0]
    else parts[0] + sep + Join(parts[1..], sep)
  }

  /** Joining the pieces of a split gives the original string back. */
  lemma {:induction false} JoinSplit(s: string, sep: char)
    ensures Join(Split(s, sep), [sep]) == s
    decreases |s|
  {
    match IndexOf(s, sep)
    case None =>
    case Some(i) =>
      var rest := s[i + 1..];
      var tail := Split(rest, sep);
      JoinSplit(rest, sep);
      var parts := [s[..i]] + tail;
      assert Split(s, sep) == parts;
      assert parts[0] == s[..i] && parts[1..] == tail;
      assert Join(parts, [sep]) == s[..i] + [sep] + Join(tail, [sep]);
      assert s == s[..i] + [sep] + rest;
  }

  /** The pieces of a split that has no separator in it: just the string. */
  lemma SplitNoSeparator(s: string, sep: char)
    requires sep !in s
    ensures Split(s, sep) == [s]
  {
  }

  // ---------------------------------------------------------------------------
  // str(int) and int(str).

  function DigitChar(d: nat): char
    requires d < 10
  {
    "0123456789"[d]
  }

  function DigitValue(c: char): nat
    requires IsDigit(c)
  {
    c as int - '0' as int
  }

  /** Decimal digits of n, most significant first, no leading zeros. */
  function NatToString(n: nat): (r: string)
    ensures IsDigits(r)
    ensures |r| > 1 ==> r[0] != '0'
  {
    if n < 10 then [DigitChar(n)] else NatToString(n / 10) + [DigitChar(n % 10)]
  }

  /** Python's str(i) for an int. */
  function IntToString(i: int): (r: string)
    ensures r != []
  {
    if i < 0 then "-" + NatToString(-i) else NatToString(i)
  }

  /** Value of a string of decimal digits. */
  function DigitsValue(s: string): nat
    requires forall k :: 0 <= k < |s| ==> IsDigit(s[k])
  {
    if s == [] then 0 else DigitsValue(s[..|s| - 1]) * 10 + DigitValue(s[|s| - 1])
  }

  lemma {:induction false} DigitsValueOfNatToString(n: nat)
    ensures DigitsValue(NatToString(n)) == n
  {
    if n >= 10 {
      var p := NatToString(n / 10);
      DigitsValueOfNatToString(n / 10);
      assert (p + [DigitChar(n % 10)])[..|p|] == p;
    }
  }

  /** A body of Python integer literal digits: digits with single underscores
      between them ("1_000"). */
  predicate IsDigitBody(s: string) {
    |s| > 0 && IsDigit(s[0]) && IsDigit(s[|s| - 1]) &&
    (forall k :: 0 <= k < |s| ==> IsDigit(s[k]) || s[k] == '_') &&
    (forall j, k :: 0 <= j < |s| && 0 <= k < |s| && k == j + 1 ==> !(s[j] == '_' && s[k] == '_'))
  }

  function RemoveUnderscores(s: string): (r: string)
    ensures forall k :: 0 <= k < |r| ==> r[k] != '_'
    ensures (forall k :: 0 <= k < |s| ==> IsDigit(s[k]) || s[k] == '_') ==>
              forall k :: 0 <= k < |r| ==> IsDigit(r[k])
    ensures (forall k :: 0 <= k < |s| ==> s[k] != '_') ==> r == s
  {
    if s == [] then []
    else if s[0] == '_' then RemoveUnderscores(s[1..])
    else [s[0]] + RemoveUnderscores(s[1..])
  }

  /** Python's int(s) for a string: surrounding whitespace, an optional sign and
      a digit body; None where Python raises ValueError. */
  function PyIntOfString(s: string): (r: Option<int>)
    ensures r.Some? ==> Strip(s) != []
  {
    var t := Strip(s);
    if t == [] then None else SignedBodyValue(t)
  }

  /** The value of a non-empty, already stripped literal: an optional sign and a digit body. */
  function SignedBodyValue(t: string): Option<int>
    requires t != []
  {
    var neg := t[0] == '-';
    var body := if t[0] == '-' || t[0] == '+' then t[1..] else t;
    if IsDigitBody(body) then
      var v: int := DigitsValue(RemoveUnderscores(body));
      Some(if neg then 0 - v else v)
    else None
  }

  /** A plain digit string is a digit body with nothing to remove. */
  lemma DigitsAreBody(d: string)
    requires IsDigits(d)
    ensures IsDigitBody(d) && RemoveUnderscores(d) == d
  {
  }

  /** int(s) on a digit string is its value. */
  lemma PyIntOfDigits(d: string)
    requires IsDigits(d)
    ensures PyIntOfString(d) == Some(DigitsValue(d) as int)
  {
    DigitsAreBody(d);
    StripUnpadded(d);
    assert d[0] != '-' && d[0] != '+';
  }

  /** A sign followed by digits has nothing to strip. */
  lemma SignedDigitsUnpadded(m: string)
    requires |m| >= 2 && m[0] == '-' && IsDigits(m[1..])
    ensures Strip(m) == m
  {
    assert m[|m| - 1] == m[1..][|m| - 2];
    StripUnpadded(m);
  }

  /** The value of "-" followed by digits. */
  lemma SignedDigitsValue(m: string)
    requires |m| >= 2 && m[0] == '-' && IsDigits(m[1..])
    ensures SignedBodyValue(m) == Some(0 - DigitsValue(m[1..]))
  {
    DigitsAreBody(m[1..]);
  }

  /** int(s) on a minus sign followed by a digit string is minus its value. */
  lemma PyIntOfNegativeDigits(d: string)
    requires IsDigits(d)
    ensures PyIntOfString("-" + d) == Some(0 - DigitsValue(d))
  {
    var m := "-" + d;
    assert m[0] == '-' && m[1..] == d;
    SignedDigitsUnpadded(m);
    SignedDigitsValue(m);
  }

  /** int(str(i)) == i. */
  lemma IntStringRoundTrip(i: int)
    ensures PyIntOfString(IntToString(i)) == Some(i)
  {
    var n: nat := if i < 0 then -i else i;
    DigitsValueOfNatToString(n);
    if i < 0 {
      PyIntOfNegativeDigits(NatToString(n));
    } else {
      PyIntOfDigits(NatToString(n));
    }
  }
}
