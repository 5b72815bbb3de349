# semver: a Dafny model of the version normaliser and constraint matcher

This project models the core of the Go package `semver`, which parses version strings and
version constraints the way Composer (PHP's package manager) does, and checks whether a
version satisfies a constraint.

- **Version normaliser** (`parser.go`, `version.go`):
  - `NewVersion` turns a version string into a normalised `Version` record. It handles
    aliases (`x as y`), the `master`/`trunk`/`default` branch names, `dev-` branches,
    dotted versions with stability tags, date versions and `…dev` branch names (through
    `NormalizeBranch`).
  - `String` renders a record back to text.
  - `expandStability` and `ParseStability` classify stability tags.
- **Comparison** (`compare.go`): a three-way comparison on major, minor and patch, then the
  stability rank, then the numeric pre-release tail. The six comparison predicates and the
  operator dispatcher sit on top of it.
- **Constraints** (`constraint.go`):
  - `NewConstraint` strips a trailing `@stability` flag or `#ref`, splits on `||`, and then
    splits each group on spaces and commas.
  - It expands each token into bounds. The token kinds are wildcard, tilde, caret, x-range,
    hyphen range and simple comparison.
  - It combines the groups into a tree, collapsing two contiguous ranges into one.
  - `Matches` evaluates the tree; `String` renders it.

The regular expressions of the source are written as hand-made recognisers. Each follows
RE2's leftmost-first choice among alternatives and its greedy or lazy repetition.

Modules, one file each:

- `Text` (character classes, decimal text, `strings` helpers)
- `Grammar` and `GrammarFacts` (the version grammars)
- `Versions` (the record and its rendering)
- `Errors` (result type)
- `Parser` and `ParserFacts` (the normaliser)
- `Comparison`
- `ConstraintGrammar` (the constraint grammars and the splitters)
- `Constraints` (the tree, the range builders, the parser)
- `ConstraintFacts` (what the trees mean)
- `ConstraintBounds` (the bounds each token kind produces, end to end from text to tree to
  rendering)

Code that changes state step by step is modelled as methods with loops. Each method is
proved equal to the function that specifies it:

- the loops of `NewConstraint` and `parseAndConstraints`;
- the loop of `String` over the children;
- the array fill of `expandVersion`;
- the piece loop of `NormalizeBranch`.

The comparison functions take a `Ranking` parameter. Its default, `AsWritten`, is the rank
lookup of compare.go:89, in which a version without a stability suffix ranks 0, below "dev".
Every unqualified use (`Compare`, `CompareOp`, `Matches`) therefore models the code as written.
`Corrected` ranks the empty suffix as "stable"; it is the corrected half of the second finding
below. Lemmas that hold under both rankings take the ranking as a parameter. Lemmas whose
statement differs state both cases, each marked.

## Model

| member | source | states |
|---|---|---|
| Text.LowerStr | parser.go:128 | lower-casing keeps the length and maps every character through ASCII `ToLower` |
| Text.NatToString | version.go:48-55 | the decimal text of n: digits only, reads back as n, no leading zero, one character exactly below 10 |
| Text.CastToInt | parser.go:174 | a non-empty digit string gives its decimal value, any other text gives 0 |
| Text.TrimLeft | parser.go:68-70 | the result is a suffix of the input, every dropped character is in the set, and the first kept one is not |
| Text.TrimPrefix | parser.go:174 | the prefix is removed exactly when the text starts with it, otherwise the text is unchanged |
| Text.ReplaceCharConcat | parser.go:113 | replacing a character distributes over concatenation |
| Grammar.MatchAlias | parser.go:11 | an alias match yields a non-empty head with no whitespace and no comma |
| ParserFacts.MatchAliasParts | parser.go:11 | every alias match is the text cut into the returned head, a blank, "as", a blank and a word |
| ParserFacts.MatchAliasOf | parser.go:11 | conversely, "x as y" with blanks around "as" matches with head x |
| Grammar.MatchBranch | parser.go:15 | a branch match has four groups: a digit run first, then digit runs or a single x, X or * |
| GrammarFacts.MatchBranchText | parser.go:15 | a branch match is the text itself: an optional "v", then the four groups written one after another |
| Grammar.FindTag | parser.go:29 | no tag is found exactly when no position starts one; otherwise the tag found starts at the leftmost such position and is the first alternative that matches there |
| Grammar.MatchVersionText | parser.go:17-25 | a match carries one to four non-empty digit groups |
| GrammarFacts.DotGroupsExact | parser.go:19 | the optional dotted groups capture exactly the dotted numbers written, and stop where they end |
| GrammarFacts.MatchVersionOfDotted | parser.go:17-25 | a dotted number text with no tag, or with "-dev", is matched with exactly its numbers |
| Versions.SentinelText | version.go:48-50 | the sentinel major 9999999 renders as "9999999" and reads back as itself |
| Versions.DecimalOrZero | version.go:35 | the number is non-negative, and a digit string reads as its value |
| Versions.PreIgnoresOtherFields | version.go:34-36 | only the stability and pre-release fields decide the pre-release number |
| Versions.NumericStringIgnoresMetadata | version.go:47-68 | a numeric version renders the same whatever its metadata, parsed text and date flag |
| Versions.BranchStringIgnoresNumbers | version.go:74-89 | a branch or date version renders from its parsed text, stability, patch and metadata alone |
| Parser.ParseVersionNumber | parser.go:169-175 | an absent group gives 0 and a group "." + d gives the value of d |
| Parser.BuildBranchVersionText | parser.go:110-119 | the loop builds exactly the pieces of the four groups, with x replaced by the sentinel and "-dev" appended |
| ParserFacts.AliasIgnoresTarget | parser.go:36-40 | "x as y" normalises exactly as x does |
| ParserFacts.SentinelNames | parser.go:42-49 | master, trunk, default (any case, optional "dev-") give major 9999999 and stability "dev", rendered "9999999-dev" |
| ParserFacts.DevPrefixBranch | parser.go:51-57 | a "dev-" name becomes a branch version whose text is "dev-" + the rest |
| ParserFacts.FromSemverPlain | parser.go:59-74 | a match of plain numbers gives those numbers, zeros for absent ones, and stability "dev" exactly when "-dev" follows |
| ParserFacts.NewVersionOfDotted | parser.go:59-74 | a dotted text of one to four numbers (major at most five digits) normalises to those numbers |
| ParserFacts.PlainVersionText | version.go:47-68 | a plain version renders as "M.m.p.e" followed by its "-dev" tail |
| ParserFacts.CanonicalRoundTrip | parser.go:59-74 | for an untagged version with an optional "-dev" and a major below 100000, parsing its text "M.m.p.e" gives the version back, and rendering the version gives the text back |
| ParserFacts.DashedDate | parser.go:76-89 | a "YYYY-MM-DD" text is read by the date grammar: a date version whose parsed text is the date with dots for dashes, rendered the same |
| ParserFacts.DateExample | parser_test.go:35 | "2010-01-02" is a date and renders "2010.01.02" |
| ParserFacts.DateRenderingReparses | parser.go:59-89 | a date does not round-trip: the rendering "2010.01.02" parses as the plain version 2010.1.2, not as a date |
| ParserFacts.NonNumericRejected | parser.go:91-96 | a text without spaces that starts with neither a digit nor "v", and is no branch name, is refused with the invalid-version error |
| ParserFacts.NumericRejected | parser.go:59-96 | a text starting with a digit that the semver grammar refuses, that cannot start a date and does not end in "dev", is refused with the invalid-version error |
| ParserFacts.NonNumericExamples | parser_test.go:80-84 | "", "a" and "feature-foo" are refused |
| ParserFacts.NumericExamples | parser_test.go:82-86 | "1.0.0-meh", "1.0.0.0.0", "1.0.0+foo bar" and "1.0.1-SNAPSHOT" are refused |
| ParserFacts.BranchVersionTextDotted | parser.go:108-121 | the rebuilt branch text is a dotted text of four numbers followed by "-dev" |
| ParserFacts.NormalizeBranchSentinel | parser.go:101-103 | master, trunk and default normalise to the sentinel version |
| ParserFacts.NormalizeBranchMatched | parser.go:106-121 | a numeric branch normalises as its rebuilt text does |
| ParserFacts.NormalizeBranchNumeric | parser.go:104-121 | a numeric branch with a short major becomes its numbers, x read as 9999999, with stability "dev" |
| ParserFacts.NormalizeBranchOther | parser.go:123-124 | any other branch name b becomes the branch version "dev-" + b |
| ParserFacts.ExpandStabilityIdempotent | parser.go:127-140 | expanding a stability twice is expanding it once |
| ParserFacts.ExpandStabilityNames | parser.go:127-140 | a/alpha, b/beta and rc map to alpha, beta and RC (in both directions), p/pl to patch, anything else to itself |
| ParserFacts.ParseStabilityCases | parser.go:142-167 | the empty text exactly gives "", every result is one of six names, a "dev-" head or "-dev" end gives dev, and a text with no tag gives stable |
| ParserFacts.ParseStabilityOfTag | parser.go:150-166 | otherwise the stability is the one the leftmost tag stands for: dev for dev, alpha for a/alpha, beta for b/beta, RC for rc, stable for stable, patch, pl and p |
| ParserFacts.ParseStabilityExamples | parser_test.go:148-158 | "dev-master" and "3.1.2-dev" are dev, "2.0B1" beta, "1.2.0a1" alpha, "3.0-RC2" RC, "3.1.2-p1" stable |
| Comparison.ComparePart | compare.go:102-112 | LessThan, Equal or GreaterThan exactly as a is below, equal to or above b |
| Comparison.Rank | compare.go:89-99 | as written, a name in the table gets its rank and every other name, "" included, gets 0; the corrected ranking gives "" the rank of stable |
| Comparison.CompareStability | compare.go:88-100 | LessThan, Equal and GreaterThan exactly as the two ranks compare, under the chosen ranking |
| Comparison.CompareIsKeyOrder | compare.go:57-86 | under either ranking, `compare` is the lexicographic order on major, minor, patch, rank and pre-release number, in all three outcomes |
| Comparison.PlainReleaseBelowDevAsWritten | compare.go:57-100 | as written, a release without a suffix is below every version with the same numbers and a named stability, dev included |
| Comparison.PlainReleaseAboveDev | compare.go:57-100 | with the corrected ranking, a release is above its own dev, alpha, beta and RC versions |
| Comparison.StabilityOrder | compare.go:88-100 | as written, "" and "patch" rank 0, and 0 < dev < alpha < beta < RC < stable; the corrected ranking puts "" level with stable |
| Comparison.CompareReflexive | compare.go:57-86 | a version compares Equal to itself |
| Comparison.CompareAntisymmetric | compare.go:57-112 | swapping the arguments flips the sign |
| Comparison.CompareTransitive | compare.go:57-86 | LessThan, and LessThan-or-Equal, are transitive |
| Comparison.CompareIgnoresOtherFields | compare.go:57-85 | extra, state, metadata and the flags never decide a comparison |
| Comparison.CompareOpMeaning | compare.go:35-55 | each operator and its synonyms is the matching order relation, and any other operator is false |
| Comparison.PredicatesAgreeWithCompareOp | compare.go:9-33 | the six predicates agree with the dispatcher and negate each other as expected |
| Comparison.PreReleaseOrdersTies | compare.go:74-85 | with equal numbers and stability, the pre-release number decides ("beta2.1" below "b.3") |
| ConstraintGrammar.Split | constraint.go:49 | a split has at least one piece and no piece contains a separator |
| ConstraintFacts.SplitPieces | constraint.go:49 | the first piece is a prefix of the text and the last a suffix, and there is one piece exactly when the text holds no separator |
| ConstraintGrammar.MatchModifier | constraint.go:23 | a flag match splits the text into head "@" stability, with a known stability name and a head free of blanks and commas |
| ConstraintFacts.ModifierLeftmost | constraint.go:23 | the flag matches exactly when some "@" can end the lazy head, and the head ends at the leftmost such "@" |
| ConstraintGrammar.MatchDevRef | constraint.go:29 | a reference match yields a proper prefix followed by "#" and a non-empty reference |
| ConstraintFacts.DevRefOfBranch | constraint.go:29 | "dev-", a run of head characters, "#" and a reference always match, with the head ending at or before that "#" |
| ConstraintFacts.DevRefOfX | constraint.go:29 | when the first alternative fails, a run of head characters, ".x-dev", "#" and a reference match by the second alternative, ending at or before that "#" |
| ConstraintGrammar.MatchXRange | constraint.go:25 | an x-range match carries one to three digit groups |
| ConstraintBounds.XRangeMatchText | constraint.go:25 | a matched text is an optional "v", the captured numbers joined by dots, and a wildcard tail |
| ConstraintBounds.XRangeMatchOf | constraint.go:25 | conversely, decimal numbers followed by a wildcard tail match with exactly those numbers |
| ConstraintGrammar.LeadingOperator | constraint.go:24 | the operator is a prefix of the token and one of the nine or none; a written two-character operator is taken whole ("<=1" gives "<="), and none is taken exactly when the token starts with no operator |
| ConstraintGrammar.UpToNewline | constraint.go:24 | the version part is the rest of the token up to, excluding, the first newline, or all of it when there is none |
| Constraints.StripStable | constraint.go:141-145 | a trailing "-stable" is removed, any other text is kept |
| Constraints.String | constraint.go:135-174 | the method yields the rendering of the tree |
| Constraints.ChildrenString | constraint.go:168-173 | the loop renders every child and joins them with the node's glue inside brackets |
| Constraints.ExpandVersion | constraint.go:494-528 | the array fill gives the normalisation of the text built from the four slots and the suffix |
| Constraints.LastGiven | constraint.go:460-465 | the position found is the last non-empty group, 0 when there is none |
| Constraints.ParseTilde | constraint.go:451-492 | a tilde token gives a bound, a match-anything node or a conjunctive node |
| Constraints.CaretPosition | constraint.go:416-422 | the caret position is 1, 2 or 3 |
| Constraints.CaretRange | constraint.go:411-442 | a caret token gives a simple range |
| Constraints.XRange | constraint.go:374-402 | an x-range token gives a simple range |
| Constraints.HyphenRange | constraint.go:316-366 | a hyphen token gives a simple range |
| ConstraintFacts.HyphenInclusiveMeaning | constraint.go:316-347 | with an exact upper side, a hyphen range accepts exactly the versions from the lower side (with "-dev" when it has no tag and no state) up to and including the upper side |
| ConstraintFacts.HyphenPartialMeaning | constraint.go:316-363 | with a partial upper side, it accepts from the lower side up to, excluding, the next minor (the next major when only the major is written) as a "-dev" version |
| Constraints.BasicRange | constraint.go:267-306 | a comparison token gives a single bound |
| Constraints.ParseConstraint | constraint.go:237-265 | every token kind gives a bound, a match-anything node or a conjunctive node |
| Constraints.NonEmpty | constraint.go:189-194 | only non-empty pieces are kept |
| Constraints.ParseAndConstraints | constraint.go:176-235 | the method computes the token list, including the single-piece case |
| Constraints.GatherParts | constraint.go:198-232 | the loop glues operators to their operand, joins "as" and "-", and panics past the end, exactly as the token function |
| Constraints.GatherJoinPanics | constraint.go:221-226 | "as" or "-" as the last part indexes past the end |
| Constraints.ParseOrGroup | constraint.go:54-83 | the method gives the group of one OR piece: a conjunctive node over the tokens' bounds, or the token alone |
| Constraints.ParseOrGroups | constraint.go:52-85 | the loop gives the groups of all pieces, or the first error |
| Constraints.NewConstraint | constraint.go:34-104 | the method gives the constraint of the text: one group as it is, two contiguous ranges collapsed into the disjunctive node of constraint.go:100, otherwise a disjunction, or the first error |
| ConstraintFacts.AllMatchFromMeaning | constraint.go:119-125 | the conjunctive loop accepts exactly when every child does |
| ConstraintFacts.AnyMatchesFromMeaning | constraint.go:108-116 | the disjunctive loop accepts exactly when some child does |
| ConstraintFacts.NodeMatches | constraint.go:106-133 | a node is the conjunction or disjunction of its children, and the match-anything node accepts every version |
| ConstraintFacts.RangeMatches | constraint.go:441 | a two-bound range accepts exactly the versions from low up to, excluding, high |
| ConstraintFacts.NormalizeOperatorMeaning | constraint.go:299-305 | the operator table maps each written operator, none being "=", to a dispatcher operator of the same meaning |
| ConstraintFacts.BasicRangeMeaning | constraint.go:267-306 | a comparison token is a bound that accepts exactly what its operator says |
| ConstraintFacts.AndChildrenShape | constraint.go:59-71 | a successful AND group has at least one well-formed child per token |
| ConstraintFacts.OrGroupsShape | constraint.go:52-85 | a successful OR loop gives one simple group per piece |
| ConstraintFacts.ConstraintOfWellFormed | constraint.go:34-104 | every constraint the parser returns is well-formed, so it can be rendered |
| ConstraintFacts.CombineWellFormed | constraint.go:87-103 | combining simple groups gives a well-formed tree |
| ConstraintFacts.SplitSepFree | constraint.go:49 | a text without separators is split into itself |
| ConstraintFacts.SplitOrPair | constraint.go:30 | "a \|\| b" splits into a and b |
| ConstraintFacts.GatherPlain | constraint.go:198-232 | parts without operators, "as" or "-" are the tokens unchanged |
| ConstraintFacts.GatherGlues | constraint.go:198-232 | ">" and "2.0" glue, "x as y" joins with single spaces, and a trailing "as" panics |
| ConstraintFacts.SingleToken | constraint.go:34-104 | a text with no flag, reference or separator is parsed as one token |
| ConstraintFacts.TwoTokens | constraint.go:34-104 | two tokens joined by "\|\|" are parsed one by one and combined |
| ConstraintFacts.CombineMatches | constraint.go:87-103 | unless two contiguous ranges collapse, the result accepts exactly what some group accepts |
| ConstraintFacts.CollapseAsWrittenAcceptsAll | constraint.go:87-100 | two contiguous ranges whose second upper bound is not below the first lower bound collapse into a node that accepts every version |
| ConstraintFacts.CollapseIsUnion | constraint.go:87-101 | the corrected collapse of two contiguous ranges accepts exactly the union of the two |
| ConstraintFacts.CollapseAsWrittenMatchesTooMuch | constraint.go:100 | the collapse as written of "^2.5 \|\| ^3.0" accepts 1.0.0, which neither group accepts; the corrected one refuses it |
| ConstraintBounds.CaretOfNumbers | constraint.go:411-442 | "^" plus numbers is the range from the written "-dev" version up to the next change of the first non-zero number |
| ConstraintBounds.TildeOfNumbers | constraint.go:451-492 | "~" plus numbers is the range from the written "-dev" version up to the next change of the number before the last given |
| ConstraintBounds.TildeArrowRefused | constraint.go:454-457 | "~>" plus numbers is refused with the "~>" operator message |
| ConstraintBounds.XRangeOfNumbers | constraint.go:374-402 | numbers plus wildcards are the range up to the next change of the last number, or only "<" that bound when all are zero |
| ConstraintBounds.BasicOfNumbers | constraint.go:267-306 | an operator plus numbers is one bound with the mapped operator, on the "-dev" version exactly for "<" and ">=" |
| ConstraintBounds.ReleaseAgainstDev | compare.go:57-100 | a release against a "-dev" version: as written it is below exactly when its numbers are not above; with the corrected ranking, exactly when its numbers are below |
| ConstraintBounds.ReleaseInDevRange | constraint.go:441 | a release is in a "-dev" range, as written, exactly when its numbers are above the low ones and at most the high ones; corrected, from the low ones up to, excluding, the high ones |
| ConstraintBounds.CaretReleases | constraint.go:411-442 | the releases "^" plus numbers accepts: as written, above the written numbers up to and including the caret bound; corrected, from them up to, excluding, the bound |
| ConstraintBounds.TildeReleases | constraint.go:451-492 | the same for "~" and the tilde bound |
| ConstraintBounds.LessAndAtLeastReleases | constraint.go:285-290 | as written, "<" accepts the release it names and every release below, and ">=" only the releases above; corrected, "<" refuses the named release and ">=" accepts it |
| ConstraintBounds.ExampleConstraints | constraint.go:34-104 | "<1", ">=1.0.0" and "~2.4" are single tokens, so the constraint is the token's |
| ConstraintBounds.NamedReleaseAsWritten | constraint_test.go:445-448 | as written, "<1" accepts 1.0.0, ">=1.0.0" refuses it, and "~2.4" accepts 3.0.0, the opposite of what the tests expect |
| ConstraintBounds.NamedReleaseCorrected | constraint_test.go:445-448 | with the corrected ranking these three behave as the tests expect |
| ConstraintBounds.TokenIsWholeConstraint | constraint.go:34-104 | a text of token characters only is parsed as one token |
| ConstraintBounds.RenderBoundsOf | constraint.go:148-173 | two "-dev" bounds render as "[>= low", the glue, "< high]" |
| ConstraintBounds.RenderRangeOf | constraint.go:135-174 | a "-dev" range renders as "[>= low < high]" |
| ConstraintBounds.CaretString | constraint_test.go:159-171 | parsing "^" plus numbers and rendering gives the text of its range |
| ConstraintBounds.TildeString | constraint_test.go:130-135 | parsing "~" plus numbers and rendering gives the text of its range |
| ConstraintBounds.XRangeString | constraint_test.go:98-107 | parsing numbers plus wildcards (non-zero major) and rendering gives the text of its range |
| ConstraintBounds.CaretOneTwoString | constraint_test.go:162 | "^1.2" renders as "[>= 1.2.0.0-dev < 2.0.0.0-dev]" |
| ConstraintBounds.CaretOrCaretString | constraint_test.go:238-241 | "^2.5 \|\| ^3.0" collapses and renders as "[>= 2.5.0.0-dev \|\| < 4.0.0.0-dev]", and it accepts 1.0.0 |

## Left out

- Text.CastToInt reads every digit string as an unbounded decimal. `cast.ToInt` reads a
  leading "0" as an octal prefix and gives 0 when the value overflows 64 bits. Version
  numbers with leading zeros or more than 18 digits are therefore read differently. It also
  reads a sign: parser.go:84 feeds it the date tag digits, which can be "-2". So
  "2010-01-02-beta-2" has Patch -2 in Go and renders "2010.01.02-beta-2". The model's
  natural-number patch gives 0 and renders "2010.01.02-beta".
- Versions.DecimalOrZero reads only the forms "D" and "D.D", as an exact real. `cast.ToFloat32`
  also reads signs, exponents, "D." and ".D", and rounds to a 32-bit float. Pre-release
  numbers that differ only past float32 precision compare Equal in Go and may not here.
- `fmt.Fprintf(buf, v.Parsed)` and `fmt.Fprintf(buf, v.Metadata)` (version.go:76, 87) use the
  text as a format string. The model copies it verbatim, so a "%" in a branch name is not
  modelled.
- The `Original` field (version.go:16) is diagnostic only and is not modelled.
- Strings are sequences of characters, not bytes. Go's `len` and slicing count bytes, so
  inputs with non-ASCII characters can differ. Case-insensitive matching folds ASCII letters
  only; Go's `(?i)` also folds the Kelvin sign and the long s.
- Error messages are modelled only for the "~>" refusal. Every other error is an
  `InvalidVersion` value carrying the text, and the index panic of `parseAndConstraints`
  (constraint.go:221-226) is the value `IndexPanic`.
- Parser.NewVersionAt: in Go, `NewVersion` and `NormalizeBranch` can call each other
  forever. For example, `NormalizeBranch("123456")` rebuilds "123456.9999999.9999999.9999999-dev",
  which matches no grammar but does end in "dev". The model's second, nested call fails with
  `InvalidVersion` instead.
- Constraints.StripStable keeps a text shorter than 7 characters unchanged, where Go's slice
  at constraint.go:142 would panic. The parser never builds such a bound: an operator, a
  space and a rendered version are always at least 7 characters.
- Constraints.String requires a well-formed tree. Go would dereference a missing version
  when rendering a node without children. ConstraintFacts.ConstraintOfWellFormed shows the
  parser never builds one.
- The carry branch of `expandVersion` (constraint.go:506-512) is not modelled. It runs only
  when a part is negative, and every part `expandVersion` reads is a digit string captured by
  a grammar, so `cast.ToInt` never gives a negative value there.
- The final error of `parseConstraint` (constraint.go:264) is not modelled: the simple
  comparison grammar matches every text, so that line is never reached.
- ParserFacts.CanonicalRoundTrip covers only untagged versions, with an optional "-dev" and
  a major below 100000. Tagged numeric versions ("1.0.0-beta2" renders "1.0.0.0-beta2") are
  not covered. Dates do not round-trip at all; ParserFacts.DateRenderingReparses shows this.
- Grammar.MatchVersionText: which texts match is pinned down only for dotted numbers followed
  by nothing or "-dev" (GrammarFacts.MatchVersionOfDotted). For tags, states and metadata
  only the shape of a match is stated.
- Grammar.MatchBranch: every match is shown to be its text (GrammarFacts.MatchBranchText), but
  the converse, that every such text matches, is not stated.
- ConstraintGrammar.Split: the pieces are shown to be separator-free, the first a prefix and
  the last a suffix, with one piece exactly when there is no separator. That the text is the
  pieces joined by the separator runs found is not stated.
- ConstraintGrammar.MatchDevRef: a match is shown to exist whenever one of the alternatives
  can match, and to end at or before the given "#". The exact lazy end, the first "#" that
  the rest of the pattern accepts, is bounded but not pinned.
- ConstraintGrammar.MatchXRange: the converse of XRangeMatchText (a text of that shape
  matches) is stated for canonical decimal numbers only (XRangeMatchOf).
- Constraints.HyphenRange: the bounds are stated in terms of `HyphenLowText` and
  `ExpandedText` (ConstraintFacts.HyphenInclusiveMeaning, HyphenPartialMeaning); no lemma
  evaluates them for concrete numbers.
- ConstraintBounds.CaretOfNumbers, TildeOfNumbers, XRangeOfNumbers and BasicOfNumbers are
  proved for canonical decimal numbers only, with no stability tag and major below 99999.
  Tokens with tags and wildcards are covered only by the shape lemmas (`Simple`).
- ConstraintBounds.XRangeString covers a non-zero major only. With a zero major the result
  can be a single "<" bound, which renders differently; XRangeOfNumbers states that case.
- `range.go`, `semver.go`, `branch.go` and `date.go` are not part of this model.

## Findings

| source | as written | input that shows it | evidently intended | confidence | as-written member | corrected member |
|---|---|---|---|---|---|---|
| constraint.go:100 | two contiguous ranges collapse into a disjunctive node `[>= low \|\| < high]`, which accepts every version | `NewConstraint("^2.5 \|\| ^3.0")` accepts 1.0.0, which neither "^2.5" nor "^3.0" accepts | a conjunctive node `[>= low < high]`: exactly the union of the two ranges | medium, not executed; constraint_test.go:238-241 expects the rendering of the node as written | ConstraintFacts.CollapseAsWrittenMatchesTooMuch | ConstraintFacts.CollapseIsUnion |
| compare.go:88-100 | the rank table has no entry for "", so a release without a suffix ranks 0, below "dev" | "<1" expands to "< 1.0.0.0-dev", and 1.0.0 compares below that bound, so "<1" accepts 1.0.0; constraint_test.go:448 expects it to be refused | a release without a suffix ranks as "stable", above its own dev, alpha, beta and RC versions | medium, not executed | ConstraintBounds.NamedReleaseAsWritten | ConstraintBounds.NamedReleaseCorrected |
