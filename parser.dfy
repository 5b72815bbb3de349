/** parser.go: the version normaliser, the stability-token expander and the
    stability classifier. */
module Parser {
  import opened Text
  import opened Grammar
  import opened Versions
  import opened Errors

  /** `expandStability` (parser.go:127-140). */
  function ExpandStability(s: string): (r: string)
  {
    var l := LowerStr(s);
    if l == "alpha" || l == "a" then "alpha"
    else if l == "beta" || l == "b" then "beta"
    else if l == "p" || l == "pl" then "patch"
    else if l == "rc" then "RC"
    else s
  }

  /** `ParseStability` (parser.go:142-167). */
  function ParseStability(s: string): (r: string)
  {
    if s == "" then ""
    else if |s| >= 4 && (LowerStr(s[..4]) == "dev-" || LowerStr(s[|s| - 4..]) == "-dev") then "dev"
    else match FindTag(s)
      case Some(t) => StabilityOfTag(LowerStr(t))
      case None => "stable"
  }

  /** The switch on the lower-cased tag (parser.go:154-164). */
  function StabilityOfTag(l: string): string
  {
    if l == "alpha" || l == "a" then "alpha"
    else if l == "beta" || l == "b" then "beta"
    else if l == "rc" then "RC"
    else if l == "dev" then "dev"
    else "stable"
  }

  /** `parseVersionNumber` (parser.go:169-175) on a group such as ".12". */
  function ParseVersionNumber(g: string): (r: nat)
    ensures g == "" ==> r == 0
    ensures forall d :: |d| > 0 && AllDigits(d) && g == "." + d ==> r == Value(d)
  {
    if g == "" then 0 else CastToInt(TrimPrefix(g, "."))
  }

  /** The group text `\.(\d+)` of the k-th number of a match, "" when absent. */
  function DotGroup(numbers: seq<string>, k: nat): string
  {
    if k < |numbers| then "." + numbers[k] else ""
  }

  /** The version built from a versionRegexC match (parser.go:59-74). */
  function FromSemver(m: VersionMatch): Version
    requires |m.numbers| >= 1
  {
    Version(
      CastToInt(m.numbers[0]),
      ParseVersionNumber(DotGroup(m.numbers, 1)),
      ParseVersionNumber(DotGroup(m.numbers, 2)),
      ParseVersionNumber(DotGroup(m.numbers, 3)),
      TrimLeft(m.tail.tagDigits, {'.', '-'}),
      TrimLeft(m.tail.state, {'-'}),
      ExpandStability(m.tail.tag),
      m.tail.metadata,
      "", false, false)
  }

  /** The version built from a dateTimeRegex match (parser.go:76-89). */
  function FromDate(m: DateMatch): Version
  {
    Zero.(stability := ExpandStability(m.tag), patch := CastToInt(m.tagDigits),
          parsed := DotForNonDigitRuns(m.head), isDate := true)
  }

  const SentinelVersion: Version := Zero.(major := Sentinel, stability := "dev")

  /** `(?i)^(?:dev-)?(?:master|trunk|default)$` (parser.go:42). */
  predicate IsSentinelName(s: string)
  {
    LowerStr(s) in {"master", "trunk", "default", "dev-master", "dev-trunk", "dev-default"}
  }

  /** The text after an "X as Y" alias is removed (parser.go:36-40). */
  function StripAlias(s: string): string
  {
    match MatchAlias(s)
    case Some(x) => x
    case None => s
  }

  /** The outcome of the grammars that need no recursion. */
  datatype Grammars = Found(v: Version) | NoGrammar

  /** Steps 2-5 of `NewVersion` on the alias-stripped text: the sentinel,
      a `dev-` branch, the numeric grammar, the date grammar, first match
      wins (parser.go:42-89). */
  function TryGrammars(s: string): Grammars
  {
    if IsSentinelName(s) then Found(SentinelVersion)
    else if |s| > 4 && LowerStr(s[..4]) == "dev-" then
      Found(Zero.(parsed := "dev-" + s[4..], isBranch := true))
    else match MatchSemver(s)
      case Some(m) => Found(FromSemver(m))
      case None =>
        match MatchDate(s)
        case Some(d) => Found(FromDate(d))
        case None => NoGrammar
  }

  /** `NewVersion` (parser.go:33-97). A call made from `NormalizeBranch`
      (`nested`) fails instead of taking the `…dev` branch fallback a
      second time; README "Left out" names the inputs on which the Go
      recursion does not end. */
  function NewVersionAt(input: string, nested: bool): Result<Version>
    decreases if nested then 1 else 3
  {
    var s := StripAlias(input);
    match TryGrammars(s)
    case Found(v) => Ok(v)
    case NoGrammar =>
      match MatchDevSuffix(s)
      case Some(b) => if nested then Err(InvalidVersion(s)) else NormalizeBranchAt(b, true)
      case None => Err(InvalidVersion(s))
  }

  function NewVersion(input: string): Result<Version>
  {
    NewVersionAt(input, false)
  }

  /** The text `NormalizeBranch` builds from a branchRegex match
      (parser.go:108-121): each group, or ".x" when absent, with X and *
      turned into x, then every x replaced by the sentinel and "-dev" added. */
  function BranchVersionText(groups: seq<string>): string
    requires |groups| == 4
  {
    ReplaceChar(BranchPieces(groups, 0), 'x', "9999999") + "-dev"
  }

  function BranchPiece(g: string): string
  {
    if g != "" then ReplaceChar(ReplaceChar(g, 'X', "x"), '*', "x") else ".x"
  }

  function BranchPieces(groups: seq<string>, i: nat): string
    requires i <= |groups|
    decreases |groups| - i
  {
    if i == |groups| then "" else BranchPiece(groups[i]) + BranchPieces(groups, i + 1)
  }

  /** The loop of `NormalizeBranch` (parser.go:110-119), appending one piece
      per group. */
  method BuildBranchVersionText(groups: seq<string>) returns (text: string)
    requires |groups| == 4
    ensures text == BranchVersionText(groups)
  {
    var versionString := "";
    for i := 0 to 4
      invariant versionString + BranchPieces(groups, i) == BranchPieces(groups, 0)
    {
      AppendPiece(versionString, groups, i);
      versionString := versionString + BranchPiece(groups[i]);
    }
    assert versionString + "" == versionString;
    text := ReplaceChar(versionString, 'x', "9999999") + "-dev";
  }

  lemma {:induction false} AppendPiece(done: string, groups: seq<string>, i: nat)
    requires i < |groups|
    ensures done + BranchPieces(groups, i) == (done + BranchPiece(groups[i])) + BranchPieces(groups, i + 1)
  {
  }

  /** `NormalizeBranch` (parser.go:99-125). */
  function NormalizeBranchAt(branch: string, nested: bool): Result<Version>
    decreases if nested then 2 else 4
  {
    if branch in {"master", "trunk", "default"} then NewVersionAt(branch, nested)
    else match MatchBranch(branch)
      case Some(groups) => NewVersionAt(BranchVersionText(groups), nested)
      case None => NewVersionAt("dev-" + branch, nested)
  }

  function NormalizeBranch(branch: string): Result<Version>
  {
    NormalizeBranchAt(branch, false)
  }
}
