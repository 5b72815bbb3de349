/** Hand-coded recognisers for the regular expressions of constraint.go
    (lines 20-31 and the wildcard test at line 240). As in Grammar, each
    function reports the capture groups of Go's leftmost-first match, trying
    the choices a regex offers in its order of preference. */
module ConstraintGrammar {
  import opened Text
  import opened Grammar

  // ------------------------------------------------------------- splitting

  /** orSplitRegex `\s*\|\|?\s*` and andConstraintRegex `\s*[ ,]\s*`
      (constraint.go:30-31). */
  datatype Separator = OrSep | AndSep

  /** A character that always starts a separator match. */
  predicate SepChar(sep: Separator, c: char)
  {
    match sep
    case OrSep => c == '|'
    case AndSep => c == ' ' || c == ','
  }

  predicate SepFree(sep: Separator, s: string)
  {
    forall k :: 0 <= k < |s| ==> !SepChar(sep, s[k])
  }

  /** The end of the separator match that starts exactly at `p`, if one does.
      The leading `\s*` is greedy: for `||?` and for a comma it keeps the
      whole white-space run; for a space it gives back characters until the
      last space of the run, and the trailing `\s*` then takes the run's
      rest, so the match still ends where the run ends. */
  function SepEnd(sep: Separator, s: string, p: nat): (e: Option<nat>)
    requires p <= |s|
    ensures e.Some? ==> p < e.value <= |s|
    ensures p < |s| && SepChar(sep, s[p]) ==> e.Some?
  {
    var w := SpaceRun(s, p);
    match sep
    case OrSep =>
      if p + w < |s| && s[p + w] == '|' then
        var q := if p + w + 1 < |s| && s[p + w + 1] == '|' then p + w + 2 else p + w + 1;
        Some(q + SpaceRun(s, q))
      else None
    case AndSep =>
      if p + w < |s| && s[p + w] == ',' then Some(p + w + 1 + SpaceRun(s, p + w + 1))
      else
        SpaceStartsRun(s, p);
        if ' ' in s[p..p + w] then Some(p + w) else None
  }

  lemma {:induction false} SpaceStartsRun(s: string, p: nat)
    requires p <= |s|
    ensures p < |s| && s[p] == ' ' ==> ' ' in s[p..p + SpaceRun(s, p)]
  {
    if p < |s| && s[p] == ' ' {
      assert s[p..p + SpaceRun(s, p)][0] == ' ';
    }
  }

  /** `Regexp.Split(s, -1)` for a separator that never matches the empty
      string: the pieces between successive leftmost separator matches,
      the leading and trailing pieces included even when empty. */
  function Split(sep: Separator, s: string): (r: seq<string>)
    ensures |r| >= 1
    ensures forall k :: 0 <= k < |r| ==> SepFree(sep, r[k])
  {
    SplitFrom(sep, s, 0, 0)
  }

  /** The pieces of `s` from `beg`, no separator having started in
      `beg..p`. */
  function SplitFrom(sep: Separator, s: string, beg: nat, p: nat): (r: seq<string>)
    requires beg <= p <= |s|
    requires forall k :: beg <= k < p ==> !SepChar(sep, s[k])
    ensures |r| >= 1
    ensures forall k :: 0 <= k < |r| ==> SepFree(sep, r[k])
    decreases |s| - p
  {
    if p == |s| then
      assert SepFree(sep, s[beg..]) by {
        forall k | 0 <= k < |s[beg..]| ensures !SepChar(sep, s[beg..][k]) {
          assert s[beg..][k] == s[beg + k];
        }
      }
      [s[beg..]]
    else match SepEnd(sep, s, p)
      case Some(e) =>
        assert SepFree(sep, s[beg..p]) by {
          forall k | 0 <= k < |s[beg..p]| ensures !SepChar(sep, s[beg..p][k]) {
            assert s[beg..p][k] == s[beg + k];
          }
        }
        [s[beg..p]] + SplitFrom(sep, s, e, e)
      case None => SplitFrom(sep, s, beg, p + 1)
  }

  // ------------------------------------------------------ stability modifier

  /** The groups of stabilityModifierRegex
      `(?i)^([^,\s]*?)@(stable|RC|beta|alpha|dev)$` (constraint.go:23). */
  datatype Modifier = Modifier(head: string, stability: string)

  const ModifierNames: set<string> := {"stable", "rc", "beta", "alpha", "dev"}

  /** The lazy head is tried shortest first; it may itself contain '@'. */
  function MatchModifier(s: string): (r: Option<Modifier>)
    ensures r.Some? ==> s == r.value.head + "@" + r.value.stability
    ensures r.Some? ==> LowerStr(r.value.stability) in ModifierNames
    ensures r.Some? ==> NoSpace(r.value.head) && ',' !in r.value.head
  {
    ModifierFrom(s, 0)
  }

  function ModifierFrom(s: string, i: nat): (r: Option<Modifier>)
    requires i <= |s|
    requires NoSpace(s[..i]) && ',' !in s[..i]
    ensures r.Some? ==> s == r.value.head + "@" + r.value.stability
    ensures r.Some? ==> LowerStr(r.value.stability) in ModifierNames
    ensures r.Some? ==> NoSpace(r.value.head) && ',' !in r.value.head
    decreases |s| - i
  {
    if i == |s| then None
    else if s[i] == '@' && LowerStr(s[i + 1..]) in ModifierNames then
      assert s == s[..i] + "@" + s[i + 1..];
      Some(Modifier(s[..i], s[i + 1..]))
    else if s[i] == ',' || IsSpace(s[i]) then None
    else
      assert s[..i + 1] == s[..i] + [s[i]];
      ModifierFrom(s, i + 1)
  }

  // -------------------------------------------------------- dev reference

  /** A character of `[^,\s@]`. */
  predicate RefHeadChar(c: char)
  {
    c != ',' && c != '@' && !IsSpace(c)
  }

  /** `#.+$` at `h`: a '#', then at least one character, none a newline. */
  predicate RefAt(s: string, h: nat)
  {
    h + 1 < |s| && s[h] == '#' && '\n' !in s[h + 1..]
  }

  /** devConstraintRegex `(?i)^(dev-[^,\s@]+?|[^,\s@]+?\.x-dev)#.+$`
      (constraint.go:29): the first group. The first alternative is tried
      in full before the second; each lazy run grows one character at a
      time. */
  function MatchDevRef(s: string): (r: Option<string>)
    ensures r.Some? ==> |r.value| < |s| && s[..|r.value|] == r.value && RefAt(s, |r.value|)
  {
    var a := if PrefixCIAt(s, 0, "dev-") then DevBranchRef(s, 5) else None;
    if a.Some? then a else DevXRef(s, 1)
  }

  /** First alternative: "dev-" and the lazy run ending before `h`. */
  function DevBranchRef(s: string, h: nat): (r: Option<string>)
    requires h >= 1
    ensures r.Some? ==> |r.value| < |s| && s[..|r.value|] == r.value && RefAt(s, |r.value|)
    decreases |s| + 1 - h
  {
    if h > |s| || !RefHeadChar(s[h - 1]) then None
    else if RefAt(s, h) then Some(s[..h])
    else DevBranchRef(s, h + 1)
  }

  /** Second alternative: the lazy run ending before `h`, then ".x-dev". */
  function DevXRef(s: string, h: nat): (r: Option<string>)
    requires h >= 1
    ensures r.Some? ==> |r.value| < |s| && s[..|r.value|] == r.value && RefAt(s, |r.value|)
    decreases |s| + 1 - h
  {
    if h > |s| || !RefHeadChar(s[h - 1]) then None
    else if PrefixCIAt(s, h, ".x-dev") && RefAt(s, h + 6) then Some(s[..h + 6])
    else DevXRef(s, h + 1)
  }

  // ---------------------------------------------------------- wildcards

  /** `(\.[xX*])*` matches all of `t`. */
  predicate WildTail(t: string)
    decreases |t|
  {
    t == [] || (|t| >= 2 && t[0] == '.' && IsWild(t[1]) && WildTail(t[2..]))
  }

  /** `^v?[xX*](\.[xX*])*$` (constraint.go:240). */
  predicate IsWildcard(s: string)
  {
    var t := if |s| > 0 && s[0] == 'v' then s[1..] else s;
    |t| >= 1 && IsWild(t[0]) && WildTail(t[1..])
  }

  // ---------------------------------------------------- version-shaped tokens

  /** tildeRegex `(?i)^~>?` + versionReg + `$` (constraint.go:26). The '>'
      is taken when present: the version cannot start with it. */
  function MatchTilde(s: string): Option<VersionMatch>
  {
    if |s| >= 1 && s[0] == '~' then
      var k := if |s| >= 2 && s[1] == '>' then 2 else 1;
      MatchLoose(s[k..])
    else None
  }

  /** caretRegex `(?i)^\^` + versionReg + `$` (constraint.go:27). */
  function MatchCaret(s: string): Option<VersionMatch>
  {
    if |s| >= 1 && s[0] == '^' then MatchLoose(s[1..]) else None
  }

  /** xRangeRegex `^v?(\d+)(?:\.(\d+))?(?:\.(\d+))?(?:\.[xX*])+$`
      (constraint.go:25): the digit strings of the numeric groups present. */
  function MatchXRange(s: string): (r: Option<seq<string>>)
    ensures r.Some? ==> 1 <= |r.value| <= 3
    ensures r.Some? ==> forall k :: 0 <= k < |r.value| ==> |r.value[k]| > 0 && AllDigits(r.value[k])
  {
    var v := if |s| > 0 && s[0] == 'v' then 1 else 0;
    var n := DigitRun(s, v);
    if n == 0 then None
    else
      var g := DotGroups(s, v + n, 2);
      var major := s[v..v + n];
      assert |major| > 0 && AllDigits(major);
      if |s[g.1..]| >= 2 && WildTail(s[g.1..]) then Some([major] + g.0) else None
  }

  /** The groups of hyphenRegex `(?i)^(versionReg) +- +(versionReg)($)`
      (constraint.go:28): each side as written and its own groups. */
  datatype HyphenMatch = HyphenMatch(low: string, lowMatch: VersionMatch, high: string, highMatch: VersionMatch)

  /** No part of versionReg matches white space, so the low side ends at the
      first white-space character, which must be a space; the space runs on
      both sides of '-' are maximal because neither '-' nor a version starts
      with a space. */
  function MatchHyphen(s: string): (r: Option<HyphenMatch>)
  {
    var i := FirstSpace(s, 0);
    var j := i + Spaces(s, i);
    if j == i || j >= |s| || s[j] != '-' then None
    else
      var k := j + 1 + Spaces(s, j + 1);
      if k == j + 1 then None
      else match (MatchLoose(s[..i]), MatchLoose(s[k..]))
        case (Some(a), Some(b)) => Some(HyphenMatch(s[..i], a, s[k..], b))
        case _ => None
  }

  /** Length of the run of ' ' (the literal space of ` +`) at `i`. */
  function Spaces(s: string, i: nat): (n: nat)
    requires i <= |s|
    ensures i + n <= |s|
    decreases |s| - i
  {
    if i < |s| && s[i] == ' ' then 1 + Spaces(s, i + 1) else 0
  }

  // ---------------------------------------------------- simple comparison

  /** The operator group of simpleComparisonRegex
      `^(<>|!=|>=?|<=?|==?)?\s*(.*)` (constraint.go:24): the alternatives in
      order, each optional '=' taken when present. Since the rest always
      matches, the first alternative that fits wins. */
  function LeadingOperator(s: string): (op: string)
    ensures |op| <= |s| && s[..|op|] == op
    ensures op in {"", "<>", "!=", ">=", ">", "<=", "<", "==", "="}
    ensures |s| >= 2 && s[..2] in {"<>", "!=", ">=", "<=", "=="} ==> op == s[..2]
    ensures op == "" <==> |s| == 0 || !(s[0] in {'<', '>', '='} || (|s| >= 2 && s[..2] == "!="))
  {
    if |s| >= 2 && s[..2] == "<>" then "<>"
    else if |s| >= 2 && s[..2] == "!=" then "!="
    else if |s| >= 2 && s[..2] == ">=" then ">="
    else if |s| >= 1 && s[0] == '>' then ">"
    else if |s| >= 2 && s[..2] == "<=" then "<="
    else if |s| >= 1 && s[0] == '<' then "<"
    else if |s| >= 2 && s[..2] == "==" then "=="
    else if |s| >= 1 && s[0] == '=' then "="
    else ""
  }

  /** The text up to the first newline (`.` does not match one). */
  function UpToNewline(t: string): (r: string)
    ensures |r| <= |t| && t[..|r|] == r && '\n' !in r
    ensures |r| == |t| || t[|r|] == '\n'
    ensures '\n' !in t ==> r == t
  {
    if t == [] || t[0] == '\n' then [] else [t[0]] + UpToNewline(t[1..])
  }

  /** The operator and the version text of a simple comparison. */
  function MatchComparison(s: string): (r: (string, string))
    ensures r.0 == LeadingOperator(s)
  {
    var op := LeadingOperator(s);
    var k := |op| + SpaceRun(s, |op|);
    (op, UpToNewline(s[k..]))
  }
}
