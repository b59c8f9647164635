/** The string builtins of Python that the parser and the graph builder lean
    on: `strip`, `lower`/`upper`, `isdigit`, `int()` on a token, `str()` of an
    integer, `zfill`, `split` and `splitlines`.  Digits, letters and case
    mapping are ASCII; whitespace is the set Python's `str.isspace` (and the
    `\s` class of `re`) accepts. */
module Text {
  import opened Wrappers

  // ---------------------------------------------------------------- chars

  predicate IsSpace(c: char) {
    c == ' ' || ('\t' <= c <= '\r') || ('\U{1c}' <= c <= '\U{1f}') ||
    c == '\U{85}' || c == '\U{a0}' || c == '\U{1680}' ||
    ('\U{2000}' <= c <= '\U{200a}') || c == '\U{2028}' || c == '\U{2029}' ||
    c == '\U{202f}' || c == '\U{205f}' || c == '\U{3000}'
  }

  /** The line boundaries of `str.splitlines`. */
  predicate IsLineBreak(c: char) {
    ('\n' <= c <= '\r') || ('\U{1c}' <= c <= '\U{1e}') ||
    c == '\U{85}' || c == '\U{2028}' || c == '\U{2029}'
  }

  predicate IsDigit(c: char) { '0' <= c <= '9' }

  predicate IsUpperLetter(c: char) { 'A' <= c <= 'Z' }

  predicate IsLowerLetter(c: char) { 'a' <= c <= 'z' }

  predicate IsLetter(c: char) { IsUpperLetter(c) || IsLowerLetter(c) }

  function LowerChar(c: char): char {
    if IsUpperLetter(c) then (c as int + 32) as char else c
  }

  function UpperChar(c: char): char {
    if IsLowerLetter(c) then (c as int - 32) as char else c
  }

  function DigitValue(c: char): nat
    requires IsDigit(c)
  {
    c as int - '0' as int
  }

  function DigitChar(d: nat): (c: char)
    requires d < 10
    ensures IsDigit(c) && DigitValue(c) == d
  {
    ('0' as int + d) as char
  }

  // ---------------------------------------------------- case and predicates

  function Lower(s: string): (r: string)
    ensures |r| == |s|
  {
    seq(|s|, i requires 0 <= i < |s| => LowerChar(s[i]))
  }

  function Upper(s: string): (r: string)
    ensures |r| == |s|
  {
    seq(|s|, i requires 0 <= i < |s| => UpperChar(s[i]))
  }

  /** `str.isdigit()` on ASCII text: non-empty and every character a digit. */
  predicate IsDigits(s: string) {
    |s| > 0 && forall i :: 0 <= i < |s| ==> IsDigit(s[i])
  }

  /** `str.isalpha()` on ASCII text. */
  predicate IsAlpha(s: string) {
    |s| > 0 && forall i :: 0 <= i < |s| ==> IsLetter(s[i])
  }

  /** A full match of the pattern `[+-]?\d+`. */
  predicate IsIntLike(s: string) {
    |s| > SignLen(s) && forall i :: SignLen(s) <= i < |s| ==> IsDigit(s[i])
  }

  /** 1 when `s` starts with a sign, else 0. */
  function SignLen(s: string): nat {
    if |s| > 0 && (s[0] == '+' || s[0] == '-') then 1 else 0
  }

  predicate StartsWith(s: string, prefix: string) {
    |prefix| <= |s| && s[..|prefix|] == prefix
  }

  predicate EndsWith(s: string, suffix: string) {
    |suffix| <= |s| && s[|s| - |suffix|..] == suffix
  }

  /** Python's `sub in s`. */
  predicate Contains(s: string, sub: string) {
    ContainsFrom(s, sub, 0)
  }

  /** `sub` occurs in `s` at some index `i` or later. */
  predicate ContainsFrom(s: string, sub: string, i: nat)
    decreases |s| - i
  {
    i + |sub| <= |s| && (s[i..i + |sub|] == sub || ContainsFrom(s, sub, i + 1))
  }

  // ------------------------------------------------------------- stripping

  /** The first index at or after `i` that does not hold whitespace. */
  function SkipSpaces(s: string, i: nat): (k: nat)
    requires i <= |s|
    ensures i <= k <= |s|
    ensures k < |s| ==> !IsSpace(s[k])
    decreases |s| - i
  {
    if i < |s| && IsSpace(s[i]) then SkipSpaces(s, i + 1) else i
  }

  /** The smallest index `k <= j` such that `s[k..j]` is all whitespace. */
  function BackSpaces(s: string, j: nat): (k: nat)
    requires j <= |s|
    ensures k <= j
    ensures k > 0 ==> !IsSpace(s[k - 1])
  {
    if j > 0 && IsSpace(s[j - 1]) then BackSpaces(s, j - 1) else j
  }

  /** `str.lstrip()`. */
  function LStrip(s: string): (r: string)
    ensures |r| <= |s|
    ensures r == [] || !IsSpace(r[0])
  {
    s[SkipSpaces(s, 0)..]
  }

  /** `str.rstrip()`. */
  function RStrip(s: string): (r: string)
    ensures |r| <= |s|
    ensures r == [] || !IsSpace(r[|r| - 1])
    ensures r != [] ==> r[0] == s[0]
  {
    s[..BackSpaces(s, |s|)]
  }

  /** `str.strip()` with no argument. */
  function Strip(s: string): (r: string)
    ensures r == [] || (!IsSpace(r[0]) && !IsSpace(r[|r| - 1]))
  {
    RStrip(LStrip(s))
  }

  /** Stripping keeps a first character that is not whitespace. */
  lemma {:induction false} StripKeepsFirst(s: string)
    requires |s| > 0 && !IsSpace(s[0])
    ensures Strip(s) != [] && Strip(s)[0] == s[0]
  {
    assert SkipSpaces(s, 0) == 0;
    assert LStrip(s) == s;
    BackSpacesAbove(s, |s|);
  }

  lemma {:induction false} BackSpacesAbove(s: string, j: nat)
    requires 1 <= j <= |s| && !IsSpace(s[0])
    ensures BackSpaces(s, j) >= 1
    decreases j
  {
    if IsSpace(s[j - 1]) {
      BackSpacesAbove(s, j - 1);
    }
  }

  lemma {:induction false} StripKeepsSpaceFree(s: string)
    requires forall i :: 0 <= i < |s| ==> !IsSpace(s[i])
    ensures Strip(s) == s
  {
  }

  /** An integer token carries no whitespace, so stripping keeps it. */
  lemma {:induction false} IntLikeStripped(s: string)
    requires IsIntLike(s)
    ensures Strip(s) == s
  {
    forall i | 0 <= i < |s|
      ensures !IsSpace(s[i])
    {
      if i > 0 || !(s[0] == '+' || s[0] == '-') {
        assert IsDigit(s[i]);
      }
    }
    StripKeepsSpaceFree(s);
  }

  /** `str.strip(chars)`: drop every leading and trailing character in `cs`. */
  function StripChars(s: string, cs: set<char>): (r: string)
    ensures |r| <= |s|
    ensures r == [] || (r[0] !in cs && r[|r| - 1] !in cs)
  {
    var a := SkipIn(s, cs, 0);
    s[a..BackIn(s, cs, a, |s|)]
  }

  function SkipIn(s: string, cs: set<char>, i: nat): (k: nat)
    requires i <= |s|
    ensures i <= k <= |s|
    ensures k < |s| ==> s[k] !in cs
    decreases |s| - i
  {
    if i < |s| && s[i] in cs then SkipIn(s, cs, i + 1) else i
  }

  function BackIn(s: string, cs: set<char>, lo: nat, j: nat): (k: nat)
    requires lo <= j <= |s|
    ensures lo <= k <= j
    ensures k > lo ==> s[k - 1] !in cs
  {
    if j > lo && s[j - 1] in cs then BackIn(s, cs, lo, j - 1) else j
  }

  // -------------------------------------------------------------- integers

  /** The value of a run of decimal digits, leading zeros allowed. */
  function DigitsValue(s: string): nat
    requires forall i :: 0 <= i < |s| ==> IsDigit(s[i])
  {
    if s == [] then 0 else DigitsValue(s[..|s| - 1]) * 10 + DigitValue(s[|s| - 1])
  }

  /** Python's `int(tok)` on a token that has already been stripped: a sign
      followed by ASCII digits, anything else is a `ValueError` (None). */
  function ParseInt(s: string): (r: Option<int>)
    ensures r.Some? <==> IsIntLike(s)
  {
    if !IsIntLike(s) then None
    else
      var v := DigitsRange(s, SignLen(s), |s|);
      if s[0] == '-' then Some(-(v as int)) else Some(v)
  }

  /** The value of the digits `s[lo..hi]`, read by index. */
  function DigitsRange(s: string, lo: nat, hi: nat): nat
    requires lo <= hi <= |s|
    requires forall i :: lo <= i < hi ==> IsDigit(s[i])
    decreases hi
  {
    if hi == lo then 0 else DigitsRange(s, lo, hi - 1) * 10 + DigitValue(s[hi - 1])
  }

  lemma {:induction false} DigitsRangeValue(s: string, lo: nat, hi: nat)
    requires lo <= hi <= |s|
    requires forall i :: lo <= i < hi ==> IsDigit(s[i])
    ensures DigitsRange(s, lo, hi) == DigitsValue(s[lo..hi])
    decreases hi
  {
    if hi > lo {
      DigitsRangeValue(s, lo, hi - 1);
      assert s[lo..hi][..hi - lo - 1] == s[lo..hi - 1];
      assert s[lo..hi][hi - lo - 1] == s[hi - 1];
    }
  }

  /** `str(n)` for a natural number: no leading zero except for 0 itself. */
  function NatToString(n: nat): (r: string)
    ensures IsDigits(r)
    ensures |r| > 1 ==> r[0] != '0'
  {
    if n < 10 then [DigitChar(n)] else NatToString(n / 10) + [DigitChar(n % 10)]
  }

  /** `str(i)` for any Python int. */
  function IntToString(i: int): (r: string)
    ensures IsIntLike(r)
  {
    if i < 0 then "-" + NatToString(-i) else NatToString(i)
  }

  lemma {:induction false} DigitsValueOfNatToString(n: nat)
    ensures DigitsValue(NatToString(n)) == n
  {
    if n >= 10 {
      DigitsValueOfNatToString(n / 10);
      var s := NatToString(n);
      assert s[..|s| - 1] == NatToString(n / 10);
    }
  }

  /** `int(str(i)) == i`: the decimal text of an integer parses back to it. */
  lemma {:induction false} ParseIntOfIntToString(i: int)
    ensures ParseInt(IntToString(i)) == Some(i)
  {
    var s := IntToString(i);
    if i < 0 {
      DigitsValueOfNatToString(-i);
      DigitsRangeValue(s, 1, |s|);
      assert s[1..|s|] == NatToString(-i);
    } else {
      DigitsValueOfNatToString(i);
      DigitsRangeValue(s, 0, |s|);
      assert s[0..|s|] == s;
    }
  }

  lemma {:induction false} DigitsValuePositive(s: string)
    requires IsDigits(s) && s[0] != '0'
    ensures DigitsValue(s) > 0
  {
    if |s| > 1 {
      DigitsValuePositive(s[..|s| - 1]);
    }
  }

  /** Digits without a leading zero are exactly the decimal text of their value. */
  lemma {:induction false} NatToStringOfDigits(s: string)
    requires IsDigits(s) && s[0] != '0'
    ensures NatToString(DigitsValue(s)) == s
  {
    if |s| > 1 {
      var p := s[..|s| - 1];
      NatToStringOfDigits(p);
      DigitsValuePositive(p);
    }
  }

  function Pow10(k: nat): (r: nat)
    ensures r >= 1
  {
    if k == 0 then 1 else 10 * Pow10(k - 1)
  }

  /** `str(n)` has at most `k` digits exactly when `n < 10^k`. */
  lemma {:induction false} NatToStringLength(n: nat, k: nat)
    requires k >= 1
    ensures |NatToString(n)| <= k <==> n < Pow10(k)
  {
    if n >= 10 {
      if k > 1 {
        NatToStringLength(n / 10, k - 1);
      } else {
        assert Pow10(1) == 10;
      }
    } else {
      if k > 1 {
        assert Pow10(k) == 10 * Pow10(k - 1);
      } else {
        assert Pow10(1) == 10;
      }
    }
  }

  function Zeros(n: nat): (r: string)
    ensures |r| == n && forall i :: 0 <= i < n ==> r[i] == '0'
  {
    if n == 0 then [] else "0" + Zeros(n - 1)
  }

  /** Leading zeros do not change the value of a digit run. */
  lemma {:induction false} DigitsValueLeadingZeros(k: nat, t: string)
    requires forall i :: 0 <= i < |t| ==> IsDigit(t[i])
    ensures DigitsValue(Zeros(k) + t) == DigitsValue(t)
  {
    if t == [] {
      ZerosValue(k);
      assert Zeros(k) + t == Zeros(k);
    } else {
      var s := Zeros(k) + t;
      assert s[..|s| - 1] == Zeros(k) + t[..|t| - 1];
      DigitsValueLeadingZeros(k, t[..|t| - 1]);
    }
  }

  lemma {:induction false} ZerosValue(k: nat)
    ensures DigitsValue(Zeros(k)) == 0
  {
    if k > 0 {
      assert Zeros(k)[..k - 1] == Zeros(k - 1);
      ZerosValue(k - 1);
    }
  }

  /** `str.zfill(width)`: pad with zeros on the left to `width`, after a
      leading sign if there is one; never truncates. */
  function ZFill(s: string, width: nat): (r: string)
    ensures |r| == if |s| >= width then |s| else width
  {
    if |s| >= width then s
    else if |s| > 0 && (s[0] == '+' || s[0] == '-') then [s[0]] + Zeros(width - |s|) + s[1..]
    else Zeros(width - |s|) + s
  }

  /** The round trip the graph builder relies on: an exactly-8-digit id that was
      read as the integer `int(s)` comes back as `s` from `str(n).zfill(8)`. */
  lemma {:induction false} EightDigitRoundTrip(s: string)
    requires |s| == 8 && IsDigits(s)
    ensures ZFill(NatToString(DigitsValue(s)), 8) == s
  {
    var k := LeadingZeros(s);
    if k == |s| {
      assert s == Zeros(8) + [];
      DigitsValueLeadingZeros(8, []);
    } else {
      var t := s[k..];
      assert s == Zeros(k) + t;
      DigitsValueLeadingZeros(k, t);
      NatToStringOfDigits(t);
    }
  }

  function LeadingZeros(s: string): (k: nat)
    ensures k <= |s|
    ensures forall i :: 0 <= i < k ==> s[i] == '0'
    ensures k < |s| ==> s[k] != '0'
  {
    if s != [] && s[0] == '0' then 1 + LeadingZeros(s[1..]) else 0
  }

  // ------------------------------------------------------------- splitting

  /** Index of the first `c` in `s`, or `|s|` when there is none. */
  function IndexOf(s: string, c: char): (k: nat)
    ensures k <= |s|
    ensures k < |s| ==> s[k] == c
    ensures c in s ==> k < |s|
  {
    IndexFromSkips(s, c, 0);
    IndexFrom(s, c, 0)
  }

  /** No `c` lies between `i` and the index `IndexFrom` finds. */
  lemma {:induction false} IndexFromSkips(s: string, c: char, i: nat)
    requires i <= |s|
    ensures forall j :: i <= j < IndexFrom(s, c, i) ==> s[j] != c
    decreases |s| - i
  {
    if i < |s| && s[i] != c {
      IndexFromSkips(s, c, i + 1);
    }
  }

  function IndexFrom(s: string, c: char, i: nat): (k: nat)
    requires i <= |s|
    ensures i <= k <= |s|
    ensures k < |s| ==> s[k] == c
    decreases |s| - i
  {
    if i == |s| || s[i] == c then i else IndexFrom(s, c, i + 1)
  }

  /** Index of the last `c` in `s`, or `|s|` when there is none. */
  function LastIndexOf(s: string, c: char): (k: nat)
    ensures k <= |s|
    ensures k < |s| ==> s[k] == c
  {
    LastBefore(s, c, |s|)
  }

  /** The last `c` in `s[..j]`, or `|s|` when there is none. */
  function LastBefore(s: string, c: char, j: nat): (k: nat)
    requires j <= |s|
    ensures k < j || k == |s|
    ensures k < j ==> s[k] == c
  {
    if j == 0 then |s| else if s[j - 1] == c then j - 1 else LastBefore(s, c, j - 1)
  }

  /** `IndexOf` is the first occurrence: any `k` with `c` at `k` and nowhere
      before it (or `|s|` when `c` is absent) is the index found. */
  lemma {:induction false} IndexOfIs(s: string, c: char, k: nat)
    requires k <= |s| && (k < |s| ==> s[k] == c)
    requires forall i :: 0 <= i < k ==> s[i] != c
    ensures IndexOf(s, c) == k
  {
    IndexFromIs(s, c, 0, k);
  }

  lemma {:induction false} IndexFromIs(s: string, c: char, i: nat, k: nat)
    requires i <= k <= |s| && (k < |s| ==> s[k] == c)
    requires forall j :: i <= j < k ==> s[j] != c
    ensures IndexFrom(s, c, i) == k
    decreases k - i
  {
    if i < k {
      IndexFromIs(s, c, i + 1, k);
    }
  }

  /** `LastIndexOf` is the last occurrence. */
  lemma {:induction false} LastIndexOfIs(s: string, c: char, k: nat)
    requires k < |s| && s[k] == c
    requires forall i :: k < i < |s| ==> s[i] != c
    ensures LastIndexOf(s, c) == k
  {
    LastBeforeIs(s, c, |s|, k);
  }

  lemma {:induction false} LastBeforeIs(s: string, c: char, j: nat, k: nat)
    requires k < j <= |s| && s[k] == c
    requires forall i :: k < i < j ==> s[i] != c
    ensures LastBefore(s, c, j) == k
    decreases j
  {
    if s[j - 1] != c {
      LastBeforeIs(s, c, j - 1, k);
    }
  }

  /** `s.split(c)`: the pieces between occurrences of `c`; always at least one. */
  function Split(s: string, c: char): (r: seq<string>)
    ensures |r| >= 1
    decreases |s|
  {
    var k := IndexOf(s, c);
    if k == |s| then [s] else [s[..k]] + Split(s[k + 1..], c)
  }

  /** `_split_csv` (of the parser and of the visualizer alike): split on every comma and strip each piece. */
  function SplitCsv(s: string): (r: seq<string>)
    ensures |r| == |Split(s, ',')| >= 1
    ensures forall i :: 0 <= i < |r| ==> r[i] == Strip(Split(s, ',')[i])
  {
    var ps := Split(s, ',');
    seq(|ps|, i requires 0 <= i < |ps| => Strip(ps[i]))
  }

  function Join(parts: seq<string>, sep: string): string {
    if parts == [] then []
    else if |parts| == 1 then parts[0]
    else parts[0] + sep + Join(parts[1..], sep)
  }

  /** A concatenation begins with its first part and ends with its second. */
  lemma {:induction false} ConcatAffixes(a: string, b: string)
    ensures StartsWith(a + b, a) && EndsWith(a + b, b)
  {
    assert (a + b)[..|a|] == a;
    assert (a + b)[|a + b| - |b|..] == b;
  }
  /** `a + b + c` starts with `a` and ends with `c`. */
  lemma {:induction false} ConcatAffixes3(a: string, b: string, c: string)
    ensures StartsWith(a + b + c, a) && EndsWith(a + b + c, c)
  {
    assert (a + b + c)[..|a|] == a;
    assert (a + b + c)[|a + b + c| - |c|..] == c;
  }


  /** A joined text begins with its first part. */
  lemma {:induction false} JoinStartsWith(parts: seq<string>, sep: string)
    requires parts != []
    ensures StartsWith(Join(parts, sep), parts[0])
  {
    if |parts| > 1 {
      var rest := sep + Join(parts[1..], sep);
      assert Join(parts, sep) == parts[0] + rest;
      assert (parts[0] + rest)[..|parts[0]|] == parts[0];
    }
  }

  /** A joined text ends with its last part. */
  lemma {:induction false} JoinEndsWith(parts: seq<string>, sep: string)
    requires parts != []
    ensures EndsWith(Join(parts, sep), parts[|parts| - 1])
    decreases |parts|
  {
    if |parts| > 1 {
      var last := parts[|parts| - 1];
      var rest := Join(parts[1..], sep);
      JoinEndsWith(parts[1..], sep);
      assert parts[1..][|parts[1..]| - 1] == last;
      var front := parts[0] + sep;
      assert Join(parts, sep) == front + rest;
      assert (front + rest)[|front + rest| - |last|..] == rest[|rest| - |last|..];
    }
  }

  /** Splitting and re-joining with the same separator gives the text back. */
  lemma {:induction false} JoinSplit(s: string, c: char)
    ensures Join(Split(s, c), [c]) == s
    decreases |s|
  {
    var k := IndexOf(s, c);
    if k < |s| {
      var rest := Split(s[k + 1..], c);
      var parts := [s[..k]] + rest;
      assert Split(s, c) == parts;
      assert parts[0] == s[..k] && parts[1..] == rest && |parts| > 1;
      assert Join(parts, [c]) == s[..k] + [c] + Join(rest, [c]);
      JoinSplit(s[k + 1..], c);
      assert s == s[..k] + [c] + s[k + 1..];
    } else {
      assert Split(s, c) == [s];
    }
  }

  /** `str.splitlines()`: lines without their terminators; `\r\n` counts as
      one boundary and a final terminator does not start an empty line. */
  function SplitLines(s: string): (r: seq<string>)
    decreases |s|
  {
    if s == [] then []
    else
      var k := FirstLineBreak(s);
      if k == |s| then [s]
      else
        var w := if s[k] == '\r' && k + 1 < |s| && s[k + 1] == '\n' then 2 else 1;
        [s[..k]] + SplitLines(s[k + w..])
  }

  function FirstLineBreak(s: string): (k: nat)
    ensures k <= |s|
    ensures k < |s| ==> IsLineBreak(s[k])
  {
    BreakFrom(s, 0)
  }

  function BreakFrom(s: string, i: nat): (k: nat)
    requires i <= |s|
    ensures i <= k <= |s|
    ensures k < |s| ==> IsLineBreak(s[k])
    decreases |s| - i
  {
    if i == |s| || IsLineBreak(s[i]) then i else BreakFrom(s, i + 1)
  }

  // --------------------------------------------------------------- repr()

  /** The characters `repr` writes as `\xhh`: the C0 controls other than
      tab, newline and carriage return, and of Latin-1 the ones
      `str.isprintable` rejects (DEL, the C1 controls, the no-break space
      and the soft hyphen). */
  predicate IsHexEscaped(c: char) {
    (c < ' ' && c != '\t' && c != '\n' && c != '\r') ||
    ('\U{7f}' <= c <= '\U{a0}') || c == '\U{ad}'
  }

  function HexDigit(d: nat): char
    requires d < 16
  {
    "0123456789abcdef"[d]
  }

  predicate IsHexDigit(c: char) { '0' <= c <= '9' || 'a' <= c <= 'f' }

  function HexValue(c: char): (d: nat)
    ensures d < 16
  {
    if '0' <= c <= '9' then c as nat - '0' as nat
    else if 'a' <= c <= 'f' then c as nat - 'a' as nat + 10
    else 0
  }

  /** The quote `repr` puts around a string: a double quote when the string
      holds a single quote and no double quote, a single quote otherwise. */
  function ReprQuote(s: string): char {
    if '\'' in s && '"' !in s then '"' else '\''
  }

  /** How `repr` writes one character between quotes `q`. */
  function ReprChar(c: char, q: char): string {
    if c == '\\' || c == q then ['\\', c]
    else if c == '\t' then "\\t"
    else if c == '\n' then "\\n"
    else if c == '\r' then "\\r"
    else if IsHexEscaped(c) then ['\\', 'x', HexDigit(c as nat / 16), HexDigit(c as nat % 16)]
    else [c]
  }

  function ReprBody(s: string, q: char): string
    decreases |s|
  {
    if s == [] then [] else ReprChar(s[0], q) + ReprBody(s[1..], q)
  }

  /** `repr(s)`, which `str()` of a list shows for each string element. */
  function PyStrRepr(s: string): string {
    [ReprQuote(s)] + ReprBody(s, ReprQuote(s)) + [ReprQuote(s)]
  }

  /** What a Python string literal's body stands for, for the escapes
      `repr` writes (`\\`, `\'`, `\"`, `\t`, `\n`, `\r`, `\xhh`); any
      other character stands for itself. */
  function Unescape(t: string): string
    decreases |t|
  {
    if t == [] then []
    else if |t| >= 2 && t[0] == '\\' then
      var e := t[1];
      if e == 't' then "\t" + Unescape(t[2..])
      else if e == 'n' then "\n" + Unescape(t[2..])
      else if e == 'r' then "\r" + Unescape(t[2..])
      else if e == 'x' && |t| >= 4 && IsHexDigit(t[2]) && IsHexDigit(t[3]) then
        [(HexValue(t[2]) * 16 + HexValue(t[3])) as char] + Unescape(t[4..])
      else [e] + Unescape(t[2..])
    else [t[0]] + Unescape(t[1..])
  }

  lemma {:induction false} HexRoundTrip(d: nat)
    requires d < 16
    ensures IsHexDigit(HexDigit(d)) && HexValue(HexDigit(d)) == d
  {
  }

  /** Reading back one written character, whatever follows it. */
  lemma {:induction false} UnescapeChar(c: char, q: char, rest: string)
    requires q == '\'' || q == '"'
    ensures Unescape(ReprChar(c, q) + rest) == [c] + Unescape(rest)
  {
    var t := ReprChar(c, q) + rest;
    if c == '\\' || c == q {
      assert t[2..] == rest;
    } else if c == '\t' || c == '\n' || c == '\r' {
      assert t[2..] == rest;
    } else if IsHexEscaped(c) {
      var hi, lo := c as nat / 16, c as nat % 16;
      HexRoundTrip(hi);
      HexRoundTrip(lo);
      assert t[2] == HexDigit(hi) && t[3] == HexDigit(lo);
      assert (hi * 16 + lo) as char == c;
      assert t[4..] == rest;
    } else {
      assert t[0] == c && t[1..] == rest;
    }
  }

  lemma {:induction false} ReprBodyRoundTrip(s: string, q: char)
    requires q == '\'' || q == '"'
    ensures Unescape(ReprBody(s, q)) == s
    decreases |s|
  {
    if s != [] {
      UnescapeChar(s[0], q, ReprBody(s[1..], q));
      ReprBodyRoundTrip(s[1..], q);
      assert [s[0]] + s[1..] == s;
    }
  }

  /** `repr` of a string is a literal that reads back as the string: it
      opens and closes with the same quote, and its body stands for `s`. */
  lemma {:induction false} PyStrReprRoundTrip(s: string)
    ensures var r := PyStrRepr(s);
      |r| >= 2 && r[0] == r[|r| - 1] == ReprQuote(s) &&
      Unescape(r[1..|r| - 1]) == s
  {
    var r := PyStrRepr(s);
    assert r[1..|r| - 1] == ReprBody(s, ReprQuote(s));
    ReprBodyRoundTrip(s, ReprQuote(s));
  }

  /** The closing quote cannot be mistaken for part of the body: each
      occurrence of the quote character inside the body follows a backslash
      that `repr` wrote for it. */
  lemma {:induction false} ReprBodyQuotesEscaped(s: string, q: char)
    requires q == '\'' || q == '"'
    ensures forall i :: 0 <= i < |ReprBody(s, q)| && ReprBody(s, q)[i] == q ==>
      i > 0 && ReprBody(s, q)[i - 1] == '\\'
    decreases |s|
  {
    if s != [] {
      ReprBodyQuotesEscaped(s[1..], q);
      var a, b := ReprChar(s[0], q), ReprBody(s[1..], q);
      assert ReprBody(s, q) == a + b;
      forall i | 0 <= i < |a + b| && (a + b)[i] == q
        ensures i > 0 && (a + b)[i - 1] == '\\'
      {
        if i >= |a| {
          assert (a + b)[i] == b[i - |a|];
          if i - |a| == 0 {
            assert false;
          }
        }
      }
    }
  }

  /** A character `repr` writes as itself between quotes `q`. */
  predicate PlainIn(c: char, q: char) {
    c != '\\' && c != q && c != '\t' && c != '\n' && c != '\r' && !IsHexEscaped(c)
  }

  /** A string without a character to escape is written as it is. */
  lemma {:induction false} ReprBodyPlain(s: string, q: char)
    requires forall i :: 0 <= i < |s| ==> PlainIn(s[i], q)
    ensures ReprBody(s, q) == s
    decreases |s|
  {
    if s != [] {
      ReprBodyPlain(s[1..], q);
      assert [s[0]] + s[1..] == s;
    }
  }

  /** A string with an apostrophe, no double quote and nothing else to
      escape is shown between double quotes and otherwise as it is, as
      `repr("Yuri's lab")` is `"Yuri's lab"`. */
  lemma {:induction false} ReprOfApostrophe(s: string)
    requires '\'' in s && '"' !in s
    requires forall i :: 0 <= i < |s| ==> s[i] == '\'' || PlainIn(s[i], '\'')
    ensures PyStrRepr(s) == ['"'] + s + ['"']
  {
    assert ReprQuote(s) == '"';
    ReprBodyPlain(s, '"');
  }

  /** A string with nothing to escape, and no quote, is shown between
      single quotes as it is. */
  lemma {:induction false} ReprOfPlain(s: string)
    requires forall i :: 0 <= i < |s| ==> PlainIn(s[i], '\'') && s[i] != '"'
    ensures PyStrRepr(s) == ['\''] + s + ['\'']
  {
    assert '\'' !in s;
    ReprBodyPlain(s, '\'');
  }
}
