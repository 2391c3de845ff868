/** String operations the client and the backend rely on: JavaScript's
    `String.prototype.trim`, `Array.prototype.join` / Python's `str.join`,
    splitting at a separator, and decimal rendering of a number. */
module Strings {

  /** The characters `trim` removes: the WhiteSpace and LineTerminator code
      points of ECMA-262 (TAB, VT, FF, ZWNBSP, every Unicode space separator,
      LF, CR, LINE SEPARATOR and PARAGRAPH SEPARATOR). */
  predicate IsJsWhitespace(c: char) {
    || c == '\t' || c == '\U{000B}' || c == '\U{000C}' || c == '\U{FEFF}'
    || c == ' ' || c == '\U{00A0}' || c == '\U{1680}' || ('\U{2000}' <= c <= '\U{200A}')
    || c == '\U{202F}' || c == '\U{205F}' || c == '\U{3000}'
    || c == '\n' || c == '\r' || c == '\U{2028}' || c == '\U{2029}'
  }

  predicate AllWhitespace(s: string) {
    forall i :: 0 <= i < |s| ==> IsJsWhitespace(s[i])
  }

  /** JavaScript's `s.trim()`: leading and trailing whitespace removed. The
      result is empty exactly when `s` is all whitespace, and otherwise
      starts and ends with a character that is not whitespace. */
  function Trim(s: string): (r: string)
    ensures |r| <= |s|
    ensures r == [] <==> AllWhitespace(s)
    ensures r != [] ==> !IsJsWhitespace(r[0]) && !IsJsWhitespace(r[|r| - 1])
    decreases |s|
  {
    if s == [] then s
    else if IsJsWhitespace(s[0]) then
      assert AllWhitespace(s) <==> AllWhitespace(s[1..]) by {
        assert forall i :: 0 <= i < |s| - 1 ==> s[1..][i] == s[i + 1];
      }
      Trim(s[1..])
    else if IsJsWhitespace(s[|s| - 1]) then
      Trim(s[..|s| - 1])
    else
      s
  }

  /** `Trim(s)` is `s[i..j]`, with whitespace only before `i` and after `j`. */
  predicate TrimmedAt(s: string, i: nat, j: nat) {
    && i <= j <= |s| && Trim(s) == s[i..j]
    && (forall k :: 0 <= k < i ==> IsJsWhitespace(s[k]))
    && (forall k :: j <= k < |s| ==> IsJsWhitespace(s[k]))
  }

  /** The trimmed text is the middle of `s`, between a whitespace prefix and
      a whitespace suffix. */
  lemma {:induction false} TrimInfix(s: string) returns (i: nat, j: nat)
    ensures TrimmedAt(s, i, j)
    decreases |s|, 1
  {
    if s == [] {
      i, j := 0, 0;
    } else if IsJsWhitespace(s[0]) {
      i, j := TrimInfixFront(s);
    } else if IsJsWhitespace(s[|s| - 1]) {
      i, j := TrimInfixBack(s);
    } else {
      i, j := 0, |s|;
    }
  }

  lemma {:induction false} TrimInfixFront(s: string) returns (i: nat, j: nat)
    requires s != [] && IsJsWhitespace(s[0])
    ensures TrimmedAt(s, i, j)
    decreases |s|, 0
  {
    var t := s[1..];
    var i', j' := TrimInfix(t);
    i, j := i' + 1, j' + 1;
    assert forall k :: 0 <= k < |t| ==> t[k] == s[k + 1];
    assert Trim(s) == Trim(t) == t[i'..j'] == s[i..j];
  }

  lemma {:induction false} TrimInfixBack(s: string) returns (i: nat, j: nat)
    requires s != [] && !IsJsWhitespace(s[0]) && IsJsWhitespace(s[|s| - 1])
    ensures TrimmedAt(s, i, j)
    decreases |s|, 0
  {
    var p := s[..|s| - 1];
    i, j := TrimInfix(p);
    assert forall k :: 0 <= k < |p| ==> p[k] == s[k];
    assert Trim(s) == Trim(p) == p[i..j] == s[i..j];
  }

  /** Trimming twice is trimming once. */
  lemma TrimIdempotent(s: string)
    ensures Trim(Trim(s)) == Trim(s)
  {
  }

  /** `s.endsWith(suffix)` (Python `str.endswith`, JavaScript `endsWith`). */
  predicate EndsWith(s: string, suffix: string) {
    |suffix| <= |s| && s[|s| - |suffix|..] == suffix
  }

  /** `sep.join(parts)` in Python and `parts.join(sep)` in JavaScript. */
  function Join(parts: seq<string>, sep: string): string
  {
    if |parts| == 0 then ""
    else if |parts| == 1 then parts[0]
    else parts[0] + sep + Join(parts[1..], sep)
  }

  function TotalLength(parts: seq<string>): nat
  {
    if parts == [] then 0 else |parts[0]| + TotalLength(parts[1..])
  }

  /** A join is as long as its parts plus one separator between each pair. */
  lemma {:induction false} JoinLength(parts: seq<string>, sep: string)
    requires |parts| >= 1
    ensures |Join(parts, sep)| == TotalLength(parts) + |sep| * (|parts| - 1)
  {
    if |parts| > 1 {
      JoinLength(parts[1..], sep);
    }
  }

  /** With a non-empty separator, a join is empty exactly when there is no part,
      or a single empty part. */
  lemma {:induction false} JoinEmptyIff(parts: seq<string>, sep: string)
    requires sep != ""
    ensures Join(parts, sep) == "" <==> |parts| == 0 || (|parts| == 1 && parts[0] == "")
  {
    if |parts| > 1 {
      assert |Join(parts, sep)| >= |sep|;
    }
  }

  /** Joining one more part extends the previous join by a separator and that part. */
  lemma {:induction false} JoinSnoc(parts: seq<string>, p: string, sep: string)
    requires |parts| >= 1
    ensures Join(parts + [p], sep) == Join(parts, sep) + sep + p
  {
    if |parts| == 1 {
      assert parts + [p] == [parts[0], p];
    } else {
      assert (parts + [p])[1..] == parts[1..] + [p];
      JoinSnoc(parts[1..], p, sep);
    }
  }

  /** The first position of `c` in `s`, or `|s|` when it does not occur. */
  function IndexOf(s: string, c: char): (i: nat)
    ensures i <= |s|
    ensures i < |s| ==> s[i] == c
    ensures forall j :: 0 <= j < i ==> s[j] != c
  {
    if s == [] then 0
    else if s[0] == c then 0
    else 1 + IndexOf(s[1..], c)
  }

  /** JavaScript's `s.split(c)` for a one-character separator. */
  function Split(s: string, c: char): (r: seq<string>)
    ensures |r| >= 1
    decreases |s|
  {
    var i := IndexOf(s, c);
    if i == |s| then [s] else [s[..i]] + Split(s[i + 1..], c)
  }

  /** Splitting a join at its one-character separator gives back the parts,
      provided no part contains the separator. */
  lemma {:induction false} SplitJoin(parts: seq<string>, c: char)
    requires |parts| >= 1
    requires forall k :: 0 <= k < |parts| ==> c !in parts[k]
    ensures Split(Join(parts, [c]), c) == parts
  {
    var p := parts[0];
    if |parts| == 1 {
      assert IndexOf(p, c) == |p|;
    } else {
      var rest := Join(parts[1..], [c]);
      var s := p + [c] + rest;
      assert s[|p|] == c;
      assert IndexOf(s, c) == |p| by {
        assert forall j :: 0 <= j < |p| ==> s[j] == p[j];
      }
      assert s[..|p|] == p;
      assert s[|p| + 1..] == rest;
      SplitJoin(parts[1..], c);
    }
  }

  function DigitChar(d: nat): (c: char)
    requires d < 10
    ensures '0' <= c <= '9'
  {
    "0123456789"[d]
  }

  predicate IsDigits(s: string) {
    forall i :: 0 <= i < |s| ==> '0' <= s[i] <= '9'
  }

  /** The decimal rendering of a number, as a template literal `${n}` gives it:
      non-empty, digits only, and without a leading zero unless it is "0". */
  function NatToDecimal(n: nat): (r: string)
    ensures |r| >= 1 && IsDigits(r)
    ensures r[0] == '0' <==> n == 0
  {
    if n < 10 then [DigitChar(n)]
    else NatToDecimal(n / 10) + [DigitChar(n % 10)]
  }

  /** The number a string of digits denotes. */
  function DecimalValue(s: string): nat
    requires IsDigits(s)
  {
    if s == [] then 0
    else DecimalValue(s[..|s| - 1]) * 10 + (s[|s| - 1] as int - '0' as int)
  }

  /** The decimal rendering loses nothing: reading it back gives the number. */
  lemma {:induction false} DecimalRoundTrip(n: nat)
    ensures DecimalValue(NatToDecimal(n)) == n
  {
    var r := NatToDecimal(n);
    if n < 10 {
      assert r[..|r| - 1] == [];
    } else {
      assert r[..|r| - 1] == NatToDecimal(n / 10);
      DecimalRoundTrip(n / 10);
    }
  }
}
