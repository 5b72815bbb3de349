/** Hand-coded recognisers for the regular expressions of parser.go and
    constraint.go. Each function returns the capture groups that Go's
    leftmost-first matcher reports. Where a regex offers choices, the
    function tries them in the regex's order of preference; where it does
    not, the comment says why the choice is forced (a digit run that stops
    early leaves a digit that nothing after it can consume). Case-insensitive
    parts use ASCII case folding. */
module Grammar {
  import opened Text

  datatype Option<T> = None | Some(value: T)

  /** The alternatives of `(dev|stable|beta|b|RC|alpha|a|patch|pl|p)` in the
      order the regex tries them, lower-cased (the regex carries `(?i)`). */
  const Tags: seq<string> := ["dev", "stable", "beta", "b", "rc", "alpha", "a", "patch", "pl", "p"]

  predicate IsTagSep(c: char) { c == '.' || c == '_' || c == '-' }

  predicate IsDotDash(c: char) { c == '.' || c == '-' }

  /** Some alternative of the tag group matches at `q`. */
  predicate TagAt(s: string, q: nat)
  {
    exists k :: 0 <= k < |Tags| && PrefixCIAt(s, q, Tags[k])
  }

  /** Index of the first alternative, from `k` on, that matches at `q`. */
  function FirstTagFrom(s: string, q: nat, k: nat): (r: nat)
    requires k <= |Tags|
    ensures k <= r <= |Tags|
    ensures r < |Tags| ==> PrefixCIAt(s, q, Tags[r])
    ensures forall j :: k <= j < r ==> !PrefixCIAt(s, q, Tags[j])
    decreases |Tags| - k
  {
    if k == |Tags| || PrefixCIAt(s, q, Tags[k]) then k else FirstTagFrom(s, q, k + 1)
  }

  /** Length of the greedy `(?:[.-]?\d+)*` starting at `i`. */
  function TagDigitsLen(s: string, i: nat): (n: nat)
    requires i <= |s|
    ensures i + n <= |s|
    decreases |s| - i
  {
    if i < |s| && IsDigit(s[i]) then
      var d := DigitRun(s, i);
      d + TagDigitsLen(s, i + d)
    else if i + 1 < |s| && IsDotDash(s[i]) && IsDigit(s[i + 1]) then
      var d := DigitRun(s, i + 1);
      1 + d + TagDigitsLen(s, i + 1 + d)
    else 0
  }

  /** Length of `[.-]?dev` (case-insensitive) at `i`, or 0 when it does not match. */
  function StateLen(s: string, i: nat): (n: nat)
    requires i <= |s|
    ensures i + n <= |s|
    ensures n == 0 || n == 3 || n == 4
  {
    if i < |s| && IsDotDash(s[i]) then (if PrefixCIAt(s, i + 1, "dev") then 4 else 0)
    else if PrefixCIAt(s, i, "dev") then 3 else 0
  }

  /** Which regex a version tail belongs to:
      Semver  = versionRegexC (parser.go:17-25), state and `+meta` with dotted identifiers;
      Loose   = versionReg (constraint.go:21), state and `+` followed by non-spaces;
      DateEnd = dateTimeRegex (parser.go:27), nothing after the tag digits. */
  datatype TailKind = Semver | Loose | DateEnd

  /** The `[0-9A-Za-z\-]+(\.[0-9A-Za-z\-]+)*` body of semver metadata. */
  predicate IsMetaBody(m: string)
  {
    |m| > 0 && m[0] != '.' && m[|m| - 1] != '.' &&
    (forall k :: 0 <= k < |m| ==> IsMetaChar(m[k])) &&
    (forall k :: 0 <= k < |m| - 1 ==> !(m[k] == '.' && m[k + 1] == '.'))
  }

  predicate IsMetaChar(c: char)
  {
    IsDigit(c) || ('a' <= c <= 'z') || ('A' <= c <= 'Z') || c == '-' || c == '.'
  }

  /** The optional metadata group followed by `$`, at `i`; the result is the
      metadata text after `+` ("" when absent). */
  function MetaEnd(kind: TailKind, s: string, i: nat): Option<string>
    requires i <= |s|
  {
    if i == |s| then Some("")
    else if kind == DateEnd || s[i] != '+' then None
    else if kind == Semver && IsMetaBody(s[i + 1..]) then Some(s[i + 1..])
    else if kind == Loose && |s| > i + 1 && NoSpace(s[i + 1..]) then Some(s[i + 1..])
    else None
  }

  /** `([.-]?dev)?` then the metadata and `$`: the state group is tried
      present first, absent second. */
  function StateMetaEnd(kind: TailKind, s: string, i: nat): Option<(string, string)>
    requires i <= |s|
  {
    var n := if kind == DateEnd then 0 else StateLen(s, i);
    if n > 0 && MetaEnd(kind, s, i + n).Some? then Some((s[i..i + n], MetaEnd(kind, s, i + n).value))
    else match MetaEnd(kind, s, i)
      case Some(m) => Some(("", m))
      case None => None
  }

  /** The capture groups after the numeric part: the tag as written, its
      digits, the state marker and the metadata. */
  datatype Tail = Tail(tag: string, tagDigits: string, state: string, metadata: string)

  /** `[._-]?(?:(TAG)((?:[.-]?\d+)*)?)?`, then the state, metadata and end of
      text, all from position `i`. The trailing `?` of the stability regex
      covers the tag group only, so the separator is optional on its own: it
      is taken first when present; then the tag alternatives are tried in
      order, each with its greedy digit run; then no tag; and last, the
      separator is given back (no tag can start with a separator, so only the
      state and metadata are tried again from `i`). */
  function TailFrom(kind: TailKind, s: string, i: nat): Option<Tail>
    requires i <= |s|
  {
    var q := if i < |s| && IsTagSep(s[i]) then i + 1 else i;
    TryTags(kind, s, i, q, 0)
  }

  function TryTags(kind: TailKind, s: string, i: nat, q: nat, k: nat): Option<Tail>
    requires i <= q <= |s| && k <= |Tags|
    decreases |Tags| - k
  {
    var t := FirstTagFrom(s, q, k);
    if t == |Tags| then
      var sm := StateMetaEnd(kind, s, q);
      var sm' := if sm.None? && q != i then StateMetaEnd(kind, s, i) else sm;
      match sm'
      case Some((st, m)) => Some(Tail("", "", st, m))
      case None => None
    else
      var j := q + |Tags[t]|;
      var d := TagDigitsLen(s, j);
      match StateMetaEnd(kind, s, j + d)
      case Some((st, m)) => Some(Tail(s[q..j], s[j..j + d], st, m))
      case None => TryTags(kind, s, i, q, t + 1)
  }

  /** Up to `max` groups `\.(\d+)` from `i`, greedily: the digit strings and
      the end position. */
  function DotGroups(s: string, i: nat, max: nat): (r: (seq<string>, nat))
    requires i <= |s|
    ensures |r.0| <= max && i <= r.1 <= |s|
    ensures forall k :: 0 <= k < |r.0| ==> |r.0[k]| > 0 && AllDigits(r.0[k])
    decreases max
  {
    if max > 0 && i + 1 < |s| && s[i] == '.' && IsDigit(s[i + 1]) then
      var d := DigitRun(s, i + 1);
      var rest := DotGroups(s, i + 1 + d, max - 1);
      ([s[i + 1..i + 1 + d]] + rest.0, rest.1)
    else ([], i)
  }

  /** A match of `v?(\d+)(\.\d+)?(\.\d+)?(\.\d+)?` followed by a tail:
      `numbers` holds the digit strings of the groups present (major first). */
  datatype VersionMatch = VersionMatch(numbers: seq<string>, tail: Tail)

  /** `v?` then a version. `ciV`: the `v` is matched case-insensitively;
      `maxMajor`: the major group's digit limit (0 for none). */
  function MatchVersionText(kind: TailKind, s: string, ciV: bool, maxMajor: nat): (r: Option<VersionMatch>)
    ensures r.Some? ==> |s| > 0 && 1 <= |r.value.numbers| <= 4
    ensures r.Some? ==> forall k :: 0 <= k < |r.value.numbers| ==> |r.value.numbers[k]| > 0 && AllDigits(r.value.numbers[k])
  {
    var v := if |s| > 0 && (s[0] == 'v' || (ciV && s[0] == 'V')) then 1 else 0;
    var n := DigitRun(s, v);
    if n == 0 || (maxMajor > 0 && n > maxMajor) then None
    else
      var g := DotGroups(s, v + n, 3);
      var major := s[v..v + n];
      assert |major| > 0 && AllDigits(major);
      match TailFrom(kind, s, g.1)
      case Some(t) => Some(VersionMatch([major] + g.0, t))
      case None => None
  }

  /** versionRegexC (parser.go:17-25). */
  function MatchSemver(s: string): Option<VersionMatch>
  {
    MatchVersionText(Semver, s, false, 5)
  }

  /** versionReg anchored on both sides (constraint.go:21), case-insensitive. */
  function MatchLoose(s: string): Option<VersionMatch>
  {
    MatchVersionText(Loose, s, true, 0)
  }

  // ---------------------------------------------------------------- dates

  function SkipDateSep(t: string): (u: string)
    ensures |u| <= |t|
  {
    if |t| > 0 && (t[0] == '.' || t[0] == ':' || t[0] == '-') then t[1..] else t
  }

  /** `(?:[.:-]?\d{1,3})?` matches all of `t`. */
  predicate DateLast(t: string)
  {
    t == [] || (var u := SkipDateSep(t); 1 <= |u| <= 3 && AllDigits(u))
  }

  /** `(?:[.:-]?\d{2}){n,6}(?:[.:-]?\d{1,3})?` matches all of `t`, `count`
      groups having been read already. */
  predicate DateGroups(t: string, count: nat)
    decreases |t|
  {
    (1 <= count && DateLast(t)) ||
    (count < 6 &&
      var u := SkipDateSep(t);
      |u| >= 2 && IsDigit(u[0]) && IsDigit(u[1]) && DateGroups(u[2..], count + 1))
  }

  /** The date head `\d{4}(?:[.:-]?\d{2}){1,6}(?:[.:-]?\d{1,3})?` matches all of `h`. */
  predicate IsDateHead(h: string)
  {
    |h| >= 4 && AllDigits(h[..4]) && DateGroups(h[4..], 0)
  }

  datatype DateMatch = DateMatch(head: string, tag: string, tagDigits: string)

  /** dateTimeRegex (parser.go:27). The head must end where the text ends or
      where a tag (possibly after a separator) begins; since the head can
      only be extended by a digit, at most one end position works, and the
      search from the longest head finds it. */
  function MatchDate(s: string): Option<DateMatch>
  {
    var v := if |s| > 0 && s[0] == 'v' then 1 else 0;
    DateFrom(s, v, |s|)
  }

  function DateFrom(s: string, v: nat, e: nat): Option<DateMatch>
    requires v <= |s| && e <= |s|
    decreases e
  {
    if e < v + 4 then None
    else if IsDateHead(s[v..e]) && TailFrom(DateEnd, s, e).Some? then
      var t := TailFrom(DateEnd, s, e).value;
      Some(DateMatch(s[v..e], t.tag, t.tagDigits))
    else DateFrom(s, v, e - 1)
  }

  // --------------------------------------------------------- stability search

  /** `stabilityRegexC.FindStringSubmatch` (unanchored, leftmost-first): the
      tag text of the leftmost match. The leftmost match starts at the first
      position where a tag begins (or at the separator just before it), and
      its tag is the first alternative that matches there. */
  function FindTag(s: string): (r: Option<string>)
    ensures r.None? <==> forall q :: 0 <= q <= |s| ==> !TagAt(s, q)
    ensures forall p: nat, k: nat :: LeftmostTag(s, 0, p, k) ==> r == Some(s[p..p + |Tags[k]|])
  {
    FindTagFromLeftmost(s, 0);
    FindTagFrom(s, 0)
  }

  /** `k` is the first alternative that matches at `p`, and none matches
      in `q..p`: by the contract of `FirstTagFrom`, the leftmost-first match
      from `q` starts its tag at `p` with alternative `k`. */
  predicate LeftmostTag(s: string, q: nat, p: nat, k: nat)
  {
    q <= p <= |s| && k < |Tags| && FirstTagFrom(s, p, 0) == k &&
    forall i :: q <= i < p ==> FirstTagFrom(s, i, 0) == |Tags|
  }

  function FindTagFrom(s: string, q: nat): (r: Option<string>)
    requires q <= |s|
    ensures r.None? <==> forall p :: q <= p <= |s| ==> !TagAt(s, p)
    decreases |s| - q
  {
    var t := FirstTagFrom(s, q, 0);
    if t < |Tags| then
      assert TagAt(s, q);
      Some(s[q..q + |Tags[t]|])
    else if q == |s| then None
    else FindTagFrom(s, q + 1)
  }

  lemma {:induction false} FindTagFromLeftmost(s: string, q: nat)
    requires q <= |s|
    ensures forall p: nat, k: nat :: LeftmostTag(s, q, p, k) ==> FindTagFrom(s, q) == Some(s[p..p + |Tags[k]|])
  {
    forall p: nat, k: nat | LeftmostTag(s, q, p, k)
      ensures FindTagFrom(s, q) == Some(s[p..p + |Tags[k]|])
    {
      FindTagFromAt(s, q, p, k);
    }
  }

  lemma {:induction false} FindTagFromAt(s: string, q: nat, p: nat, k: nat)
    requires LeftmostTag(s, q, p, k)
    ensures FindTagFrom(s, q) == Some(s[p..p + |Tags[k]|])
    decreases p - q
  {
    if p == q {
      FindTagStep(s, q);
    } else {
      assert FirstTagFrom(s, q, 0) == |Tags|;
      FindTagStep(s, q);
      assert LeftmostTag(s, q + 1, p, k);
      FindTagFromAt(s, q + 1, p, k);
    }
  }

  /** One step of the search: a tag at `q`, or the search from `q + 1`. */
  lemma {:induction false} FindTagStep(s: string, q: nat)
    requires q <= |s|
    ensures var t := FirstTagFrom(s, q, 0);
      if t < |Tags| then FindTagFrom(s, q) == Some(s[q..q + |Tags[t]|])
      else q < |s| ==> FindTagFrom(s, q) == FindTagFrom(s, q + 1)
  {
  }

  /** The first alternative search succeeds exactly where a tag begins. */
  lemma {:induction false} FirstTagIsTag(s: string, q: nat)
    ensures FirstTagFrom(s, q, 0) < |Tags| <==> TagAt(s, q)
  {
    var t := FirstTagFrom(s, q, 0);
    if t < |Tags| {
      assert PrefixCIAt(s, q, Tags[t]);
    }
  }

  /** Every alternative of the tag group starts with a letter. */
  lemma {:induction false} TagStartsWithLetter(k: nat)
    requires k < |Tags|
    ensures |Tags[k]| >= 1 && 'a' <= Tags[k][0] <= 'z'
  {
  }

  // ----------------------------------------------------------- other regexes

  /** aliasRegex `^([^,\s]+)\s+as\s+([^,\s]+)$` (parser.go:11): the first
      group, or None. The first group ends at the first space character. */
  function MatchAlias(s: string): (r: Option<string>)
    ensures r.Some? ==> |r.value| > 0 && NoSpace(r.value) && ',' !in r.value
  {
    var i := FirstSpace(s, 0);
    var x := s[..i];
    if i == 0 || ',' in x then None
    else
      var j := i + SpaceRun(s, i);
      if j == i || j + 2 > |s| || s[j..j + 2] != "as" then None
      else
        var k := j + 2 + SpaceRun(s, j + 2);
        var y := s[k..];
        if k == j + 2 || |y| == 0 || ',' in y || !NoSpace(y) then None
        else Some(x)
  }

  /** Index of the first space character at or after `i`, or |s|. */
  function FirstSpace(s: string, i: nat): (r: nat)
    requires i <= |s|
    ensures i <= r <= |s|
    ensures forall k :: i <= k < r ==> !IsSpace(s[k])
    ensures r < |s| ==> IsSpace(s[r])
    decreases |s| - i
  {
    if i == |s| || IsSpace(s[i]) then i else FirstSpace(s, i + 1)
  }

  /** branchMatcher `(?i)(.*?)[.-]?dev$` (parser.go:29), unanchored: the lazy
      group stops before `[.-]dev` when there is a separator, else before
      `dev`; `.` does not match a newline, so the match starts after the
      last newline before that point. */
  function MatchDevSuffix(s: string): (r: Option<string>)
  {
    var n := |s|;
    if n >= 3 && LowerStr(s[n - 3..]) == "dev" then
      var l := if n >= 4 && IsDotDash(s[n - 4]) then n - 4 else n - 3;
      Some(AfterLastNewline(s[..l]))
    else None
  }

  function AfterLastNewline(s: string): (r: string)
    ensures '\n' !in s ==> r == s
    decreases |s|
  {
    if s == [] then []
    else if s[|s| - 1] == '\n' then []
    else AfterLastNewline(s[..|s| - 1]) + [s[|s| - 1]]
  }

  /** branchRegex `^v?(\d+)(\.(?:\d+|[xX*]))?(\.(?:\d+|[xX*]))?(\.(?:\d+|[xX*]))?$`
      (parser.go:15): the four groups, absent ones as "". Groups 2-4 keep their dot. */
  function MatchBranch(s: string): (r: Option<seq<string>>)
    ensures r.Some? ==> |r.value| == 4 && |r.value[0]| > 0 && AllDigits(r.value[0])
    ensures r.Some? ==> forall k :: 1 <= k < 4 ==> IsBranchGroup(r.value[k])
    ensures r.Some? ==> |s| > 0 && (IsDigit(s[0]) || s[0] == 'v')
  {
    var v := if |s| > 0 && s[0] == 'v' then 1 else 0;
    var n := DigitRun(s, v);
    if n == 0 then None
    else
      var g := BranchGroups(s, v + n, 3);
      if g.1 != |s| then None
      else
        var major := s[v..v + n];
        assert |major| > 0 && AllDigits(major);
        Some([major] + g.0)
  }

  predicate IsWild(c: char) { c == 'x' || c == 'X' || c == '*' }

  /** The text of one optional branch group: absent, "." and digits, or "."
      and a wildcard. */
  predicate IsBranchGroup(g: string)
  {
    g == "" || (|g| >= 2 && g[0] == '.' && (AllDigits(g[1..]) || (|g| == 2 && IsWild(g[1]))))
  }

  function BranchGroups(s: string, i: nat, max: nat): (r: (seq<string>, nat))
    requires i <= |s|
    ensures |r.0| == max && i <= r.1 <= |s|
    ensures forall k :: 0 <= k < max ==> IsBranchGroup(r.0[k])
    decreases max
  {
    if max == 0 then ([], i)
    else if i + 1 < |s| && s[i] == '.' && IsDigit(s[i + 1]) then
      var d := DigitRun(s, i + 1);
      var rest := BranchGroups(s, i + 1 + d, max - 1);
      var g := s[i..i + 1 + d];
      assert g[1..] == s[i + 1..i + 1 + d];
      assert IsBranchGroup(g);
      ([g] + rest.0, rest.1)
    else if i + 1 < |s| && s[i] == '.' && IsWild(s[i + 1]) then
      var rest := BranchGroups(s, i + 2, max - 1);
      ([s[i..i + 2]] + rest.0, rest.1)
    else
      var rest := BranchGroups(s, i, max - 1);
      ([""] + rest.0, rest.1)
  }
}
