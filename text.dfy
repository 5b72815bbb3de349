/** Character classes, ASCII case folding and decimal conversion used by the
    version grammars. Go's `strings`, `strconv` and the `cast` conversions
    the repository calls are modelled here on `seq<char>`. */
module Text {

  predicate IsDigit(c: char) { '0' <= c <= '9' }

  /** RE2's `\s`: tab, newline, form feed, carriage return and space. */
  predicate IsSpace(c: char) { c == ' ' || c == '\t' || c == '\n' || c == '\r' || c == 12 as char }

  predicate AllDigits(s: string) { forall i :: 0 <= i < |s| ==> IsDigit(s[i]) }

  predicate NoSpace(s: string) { forall i :: 0 <= i < |s| ==> !IsSpace(s[i]) }

  /** ASCII lower-casing of one character (`unicode.ToLower` on ASCII). */
  function Lower(c: char): (r: char)
    ensures 'A' <= c <= 'Z' ==> r as int == c as int + 32
    ensures !('A' <= c <= 'Z') ==> r == c
  {
    if 'A' <= c <= 'Z' then (c as int + 32) as char else c
  }

  function LowerStr(s: string): (r: string)
    ensures |r| == |s|
    ensures forall i :: 0 <= i < |s| ==> r[i] == Lower(s[i])
  {
    if s == [] then [] else [Lower(s[0])] + LowerStr(s[1..])
  }

  /** Text without upper-case letters is its own lower-casing. */
  lemma {:induction false} LowerStrNoUpper(s: string)
    requires forall k :: 0 <= k < |s| ==> !('A' <= s[k] <= 'Z')
    ensures LowerStr(s) == s
  {
  }

  /** `p` (given in lower case) occurs case-insensitively at position `i` of `s`. */
  predicate PrefixCIAt(s: string, i: nat, p: string)
  {
    i + |p| <= |s| && LowerStr(s[i..i + |p|]) == p
  }

  /** Length of the longest run of digits of `s` starting at `i`. */
  function DigitRun(s: string, i: nat): (n: nat)
    requires i <= |s|
    ensures i + n <= |s|
    ensures AllDigits(s[i..i + n])
    ensures i + n == |s| || !IsDigit(s[i + n])
    decreases |s| - i
  {
    if i < |s| && IsDigit(s[i]) then 1 + DigitRun(s, i + 1) else 0
  }

  /** Length of the longest run of `\s` characters of `s` starting at `i`. */
  function SpaceRun(s: string, i: nat): (n: nat)
    requires i <= |s|
    ensures i + n <= |s|
    ensures forall k :: i <= k < i + n ==> IsSpace(s[k])
    ensures i + n == |s| || !IsSpace(s[i + n])
    decreases |s| - i
  {
    if i < |s| && IsSpace(s[i]) then 1 + SpaceRun(s, i + 1) else 0
  }

  function DigitVal(c: char): nat
    requires IsDigit(c)
  {
    c as int - '0' as int
  }

  function DigitChar(d: nat): (c: char)
    requires d < 10
    ensures IsDigit(c) && DigitVal(c) == d
  {
    ('0' as int + d) as char
  }

  /** The value of a decimal digit string. */
  function Value(s: string): nat
    requires AllDigits(s)
    decreases |s|
  {
    if s == [] then 0 else Value(s[..|s| - 1]) * 10 + DigitVal(s[|s| - 1])
  }

  /** Decimal rendering of a natural number (`%d`, `cast.ToString`). */
  function NatToString(n: nat): (r: string)
    ensures 1 <= |r| && AllDigits(r)
    ensures Value(r) == n
    ensures (n < 10) == (|r| == 1)
    ensures |r| > 1 ==> r[0] != '0'
    decreases n
  {
    if n < 10 then [DigitChar(n)] else NatToString(n / 10) + [DigitChar(n % 10)]
  }

  lemma {:induction false} NatToStringLength(n: nat, k: nat)
    requires n < Pow10(k) && 1 <= k
    ensures |NatToString(n)| <= k
    decreases n
  {
    if n >= 10 {
      NatToStringLength(n / 10, k - 1);
    }
  }

  function Pow10(k: nat): (r: nat)
    ensures r >= 1
  {
    if k == 0 then 1 else 10 * Pow10(k - 1)
  }

  /** `cast.ToInt` on the strings the grammars capture: a non-empty decimal
      digit string gives its value, anything else the failure value 0. */
  function CastToInt(s: string): (r: nat)
    ensures |s| > 0 && AllDigits(s) ==> r == Value(s)
    ensures !(|s| > 0 && AllDigits(s)) ==> r == 0
  {
    if |s| > 0 && AllDigits(s) then Value(s) else 0
  }

  /** `strings.TrimLeft(s, set)`: drop every leading character found in `set`. */
  function TrimLeft(s: string, set_: set<char>): (r: string)
    ensures |r| <= |s| && r == s[|s| - |r|..]
    ensures r == [] || r[0] !in set_
    ensures forall k :: 0 <= k < |s| - |r| ==> s[k] in set_
  {
    if s != [] && s[0] in set_ then TrimLeft(s[1..], set_) else s
  }

  /** `strings.TrimPrefix(s, p)`. */
  function TrimPrefix(s: string, p: string): (r: string)
    ensures |p| <= |s| && s[..|p|] == p ==> r == s[|p|..]
    ensures !(|p| <= |s| && s[..|p|] == p) ==> r == s
  {
    if |p| <= |s| && s[..|p|] == p then s[|p|..] else s
  }

  /** `strings.Replace(s, old, "", -1)`: delete every non-overlapping
      occurrence of `pat`, scanning left to right; an empty `pat` leaves `s`
      unchanged. */
  function RemoveAll(s: string, pat: string): (r: string)
    ensures |r| <= |s|
    ensures pat == [] ==> r == s
    decreases |s|
  {
    if pat == [] || |s| < |pat| then s
    else if s[..|pat|] == pat then RemoveAll(s[|pat|..], pat)
    else [s[0]] + RemoveAll(s[1..], pat)
  }

  /** `strings.Replace(s, [c], rep, -1)` for a one-character pattern. */
  function ReplaceChar(s: string, c: char, rep: string): (r: string)
    ensures c !in s ==> r == s
  {
    if s == [] then []
    else (if s[0] == c then rep else [s[0]]) + ReplaceChar(s[1..], c, rep)
  }

  /** Replacing a character distributes over concatenation. */
  lemma {:induction false} ReplaceCharConcat(a: string, b: string, c: char, rep: string)
    ensures ReplaceChar(a + b, c, rep) == ReplaceChar(a, c, rep) + ReplaceChar(b, c, rep)
    decreases |a|
  {
    if a != [] {
      assert (a + b)[1..] == a[1..] + b;
      ReplaceCharConcat(a[1..], b, c, rep);
    } else {
      assert a + b == b;
    }
  }

  /** `replaceRegex.ReplaceAllString(s, ".")` with `([^0-9]+)`: every maximal
      run of non-digits becomes a single ".". */
  function DotForNonDigitRuns(s: string): (r: string)
    ensures AllDigits(s) ==> r == s
    decreases |s|
  {
    if s == [] then []
    else if IsDigit(s[0]) then [s[0]] + DotForNonDigitRuns(s[1..])
    else "." + DotForNonDigitRuns(s[NonDigitRun(s, 0)..])
  }

  function NonDigitRun(s: string, i: nat): (n: nat)
    requires i <= |s|
    ensures i + n <= |s|
    ensures i < |s| && !IsDigit(s[i]) ==> n >= 1
    decreases |s| - i
  {
    if i < |s| && !IsDigit(s[i]) then 1 + NonDigitRun(s, i + 1) else 0
  }

  /** `strings.Join(parts, glue)`. */
  function Join(parts: seq<string>, glue: string): (r: string)
  {
    if parts == [] then []
    else if |parts| == 1 then parts[0]
    else parts[0] + glue + Join(parts[1..], glue)
  }
}
