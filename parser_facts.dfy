/** Properties of the version normaliser of parser.go: aliases, the
    sentinel branch names, `dev-` branches, the numeric grammar on dotted
    numbers, the branch normaliser, and the stability helpers. */
module ParserFacts {
  import opened Text
  import opened Grammar
  import opened GrammarFacts
  import opened Versions
  import opened Errors
  import opened Parser

  // ------------------------------------------------------------ text helpers

  /** A non-empty run of space characters. */
  predicate Blank(w: string)
  {
    |w| > 0 && forall k :: 0 <= k < |w| ==> IsSpace(w[k])
  }

  /** One side of an alias: non-empty, with no space and no comma. */
  predicate Word(x: string)
  {
    |x| > 0 && NoSpace(x) && ',' !in x
  }

  lemma {:induction false} SpaceRunExact(s: string, i: nat, w: string)
    requires i + |w| <= |s| && s[i..i + |w|] == w
    requires forall k :: 0 <= k < |w| ==> IsSpace(w[k])
    requires i + |w| == |s| || !IsSpace(s[i + |w|])
    ensures SpaceRun(s, i) == |w|
    decreases |w|
  {
    if w != [] {
      SliceChar(s, i, w, 0);
      SubSlice(s, i, w, 1, |w|);
      SpaceRunExact(s, i + 1, w[1..]);
    }
  }

  lemma {:induction false} NoSpaceConcat(a: string, b: string)
    requires NoSpace(a) && NoSpace(b)
    ensures NoSpace(a + b)
  {
    forall k | 0 <= k < |a + b|
      ensures !IsSpace((a + b)[k])
    {
      if k >= |a| {
        assert (a + b)[k] == b[k - |a|];
      }
    }
  }

  lemma {:induction false} DotTextNoSpace(ds: seq<string>)
    requires AllNumbers(ds)
    ensures NoSpace(DotText(ds))
    decreases ds
  {
    if ds != [] {
      AllNumbersTail(ds);
      DotTextNoSpace(ds[1..]);
      assert NoSpace(ds[0]) by {
        assert AllDigits(ds[0]);
      }
      NoSpaceConcat(".", ds[0]);
      NoSpaceConcat("." + ds[0], DotText(ds[1..]));
    }
  }

  lemma {:induction false} DottedNoSpace(ds: seq<string>, t: string)
    requires 1 <= |ds| && AllNumbers(ds) && PlainTail(t)
    ensures NoSpace(DottedText(ds) + t)
  {
    AllNumbersTail(ds);
    DotTextNoSpace(ds[1..]);
    assert NoSpace(ds[0]) by {
      assert AllDigits(ds[0]);
    }
    NoSpaceConcat(ds[0], DotText(ds[1..]));
    NoSpaceConcat(DottedText(ds), t);
  }

  // ------------------------------------------------------------------ aliases

  /** Text without a space is no alias. */
  lemma {:induction false} StripAliasNoSpace(s: string)
    requires NoSpace(s)
    ensures StripAlias(s) == s
  {
    assert FirstSpace(s, 0) == |s|;
    assert s[..|s|] == s;
  }

  /** An alias "X as Y" is recognised and its first side returned. */
  lemma {:induction false} MatchAliasOf(x: string, w1: string, w2: string, y: string)
    requires Word(x) && Word(y) && Blank(w1) && Blank(w2)
    ensures MatchAlias(x + w1 + "as" + w2 + y) == Some(x)
  {
    var s := x + w1 + "as" + w2 + y;
    var i := |x|;
    var j := i + |w1|;
    var k := j + 2 + |w2|;
    assert s[..i] == x;
    assert s[i..j] == w1;
    assert s[j..j + 2] == "as";
    assert s[j + 2..k] == w2;
    assert s[k..] == y;
    assert s[i] == w1[0];
    assert s[j] == 'a';
    assert s[k] == y[0];
    assert FirstSpace(s, 0) == i by {
      forall p | 0 <= p < i
        ensures !IsSpace(s[p])
      {
        assert s[p] == x[p];
      }
    }
    SpaceRunExact(s, i, w1);
    SpaceRunExact(s, j + 2, w2);
  }

  /** Every alias match is of that shape: the text is the returned head, a
      blank, "as", a blank and a word, so aliasRegex and `MatchAlias` agree
      in both directions (parser.go:11). */
  lemma {:induction false} MatchAliasParts(s: string)
    requires MatchAlias(s).Some?
    ensures exists w1, w2, y ::
      (Blank(w1) && Blank(w2) && Word(y) && s == MatchAlias(s).value + w1 + "as" + w2 + y)
  {
    var i := FirstSpace(s, 0);
    var j := i + SpaceRun(s, i);
    var k := j + 2 + SpaceRun(s, j + 2);
    AliasUnfold(s, i, j, k);
    BlankSlice(s, i, j);
    BlankSlice(s, j + 2, k);
    FiveSlices(s, i, j, k);
    AliasWitness(s, s[..i], s[i..j], s[j + 2..k], s[k..]);
  }

  lemma {:induction false} AliasUnfold(s: string, i: nat, j: nat, k: nat)
    requires MatchAlias(s).Some?
    requires i == FirstSpace(s, 0) && j == i + SpaceRun(s, i)
    requires j + 2 <= |s| && k == j + 2 + SpaceRun(s, j + 2)
    ensures MatchAlias(s) == Some(s[..i])
    ensures i < j && j + 2 < k < |s| && s[j..j + 2] == "as" && Word(s[k..])
  {
  }

  lemma {:induction false} AliasWitness(s: string, x: string, w1: string, w2: string, y: string)
    requires Blank(w1) && Blank(w2) && Word(y) && s == x + w1 + "as" + w2 + y
    ensures exists a, b, c :: (Blank(a) && Blank(b) && Word(c) && s == x + a + "as" + b + c)
  {
  }

  lemma {:induction false} BlankSlice(s: string, i: nat, j: nat)
    requires i < j <= |s| && forall k :: i <= k < j ==> IsSpace(s[k])
    ensures Blank(s[i..j])
  {
    forall k | 0 <= k < j - i
      ensures IsSpace(s[i..j][k])
    {
      assert s[i..j][k] == s[i + k];
    }
  }

  lemma {:induction false} FiveSlices(s: string, i: nat, j: nat, k: nat)
    requires i <= j && j + 2 <= k <= |s|
    ensures s == s[..i] + s[i..j] + s[j..j + 2] + s[j + 2..k] + s[k..]
  {
  }

  /** "X as Y" normalises exactly as X: the alias target is never parsed
      (parser.go:11, 36-40). */
  lemma {:induction false} AliasIgnoresTarget(x: string, w1: string, w2: string, y: string)
    requires Word(x) && Word(y) && Blank(w1) && Blank(w2)
    ensures NewVersion(x + w1 + "as" + w2 + y) == NewVersion(x)
  {
    MatchAliasOf(x, w1, w2, y);
    StripAliasNoSpace(x);
  }

  // ---------------------------------------------------- sentinel and dev- names

  lemma {:induction false} LowerNoSpace(s: string)
    requires NoSpace(LowerStr(s))
    ensures NoSpace(s)
  {
    forall k | 0 <= k < |s|
      ensures !IsSpace(s[k])
    {
      assert LowerStr(s)[k] == Lower(s[k]);
    }
  }

  /** "master", "trunk" and "default", with or without "dev-" and in any
      case, give the sentinel major with stability "dev", rendered
      "9999999-dev" (parser.go:42-49, version.go:48-50). */
  lemma {:induction false} SentinelNames(s: string)
    requires IsSentinelName(s)
    ensures NewVersion(s) == Ok(SentinelVersion)
    ensures NewVersion(s).value.major == Sentinel && NewVersion(s).value.stability == "dev"
    ensures ToString(NewVersion(s).value) == "9999999-dev"
  {
    SentinelNameNoSpace(s);
    StripAliasNoSpace(s);
    NewVersionFound(s, SentinelVersion);
    SentinelVersionText();
  }

  lemma {:induction false} SentinelNameNoSpace(s: string)
    requires IsSentinelName(s)
    ensures NoSpace(s)
  {
    SentinelSpellingNoSpace(LowerStr(s));
    LowerNoSpace(s);
  }

  /** None of the six lower-case sentinel spellings holds a space. */
  lemma {:induction false} SentinelSpellingNoSpace(l: string)
    requires l in {"master", "trunk", "default", "dev-master", "dev-trunk", "dev-default"}
    ensures NoSpace(l)
  {
    if l == "master" {
      SpellingNoSpace(l);
    } else if l == "trunk" {
      SpellingNoSpace(l);
    } else if l == "default" {
      SpellingNoSpace(l);
    } else if l == "dev-master" {
      SpellingNoSpace(l);
    } else if l == "dev-trunk" {
      SpellingNoSpace(l);
    } else {
      SpellingNoSpace(l);
    }
  }

  /** A text of letters and dashes holds no space. */
  lemma {:induction false} SpellingNoSpace(l: string)
    requires forall k :: 0 <= k < |l| ==> l[k] == '-' || 'a' <= l[k] <= 'z'
    ensures NoSpace(l)
  {
    forall k | 0 <= k < |l|
      ensures !IsSpace(l[k])
    {
    }
  }

  lemma SentinelVersionText()
    ensures ToString(SentinelVersion) == "9999999-dev"
  {
    SentinelText();
  }

  /** When the alias-free text matches a grammar, that is the result. */
  lemma {:induction false} NewVersionFound(s: string, v: Version)
    requires StripAlias(s) == s && TryGrammars(s) == Found(v)
    ensures NewVersion(s) == Ok(v)
  {
  }

  lemma {:induction false} TryGrammarsSemver(s: string, m: VersionMatch)
    requires !IsSentinelName(s) && !(|s| > 4 && LowerStr(s[..4]) == "dev-")
    requires MatchSemver(s) == Some(m)
    ensures |m.numbers| >= 1 && TryGrammars(s) == Found(FromSemver(m))
  {
  }

  lemma {:induction false} GroupNumber(ds: seq<string>, k: nat)
    requires AllNumbers(ds)
    ensures ParseVersionNumber(DotGroup(ds, k)) == NumberAt(ds, k)
  {
    if k < |ds| {
      assert |ds[k]| > 0 && AllDigits(ds[k]);
    }
  }

  lemma {:induction false} FromSemverPlainParts(ds: seq<string>, t: string)
    requires 1 <= |ds| <= 4 && AllNumbers(ds) && PlainTail(t)
    ensures FromSemver(VersionMatch(ds, PlainTailOf(t))) ==
      Version(CastToInt(ds[0]), ParseVersionNumber(DotGroup(ds, 1)), ParseVersionNumber(DotGroup(ds, 2)),
              ParseVersionNumber(DotGroup(ds, 3)), "", "", if t == "" then "" else "dev", "", "", false, false)
  {
    var tail := PlainTailOf(t);
    assert ExpandStability(tail.tag) == (if t == "" then "" else "dev") by {
      LowerStrNoUpper("dev");
    }
    assert TrimLeft(tail.tagDigits, {'.', '-'}) == "";
    assert TrimLeft(tail.state, {'-'}) == "";
  }

  lemma {:induction false} FromSemverPlain(ds: seq<string>, t: string)
    requires 1 <= |ds| <= 4 && AllNumbers(ds) && PlainTail(t)
    ensures FromSemver(VersionMatch(ds, PlainTailOf(t))) ==
      Zero.(major := Value(ds[0]), minor := NumberAt(ds, 1), patch := NumberAt(ds, 2),
            extra := NumberAt(ds, 3), stability := if t == "" then "" else "dev")
  {
    FromSemverPlainParts(ds, t);
    assert |ds[0]| > 0 && AllDigits(ds[0]);
    GroupNumber(ds, 1);
    GroupNumber(ds, 2);
    GroupNumber(ds, 3);
  }

  /** A name of more than 4 characters starting with "dev-" in any case, that
      is no alias and no sentinel name, is a branch version whose parsed text
      keeps the rest's case; it renders as that text (parser.go:51-57). */
  lemma {:induction false} DevPrefixBranch(s: string)
    requires |s| > 4 && LowerStr(s[..4]) == "dev-"
    requires MatchAlias(s).None? && !IsSentinelName(s)
    ensures NewVersion(s) == Ok(Zero.(parsed := "dev-" + s[4..], isBranch := true))
    ensures ToString(NewVersion(s).value) == "dev-" + s[4..]
  {
  }

  // ----------------------------------------------------------- numeric grammar

  /** The k-th number of a match, 0 when the group is absent. */
  function NumberAt(ds: seq<string>, k: nat): nat
    requires AllNumbers(ds)
  {
    if k < |ds| then Value(ds[k]) else 0
  }

  /** A text starting with a digit is neither a sentinel name nor a
      `dev-` branch. */
  lemma {:induction false} DigitStartNoName(s: string)
    requires |s| > 0 && IsDigit(s[0])
    ensures !IsSentinelName(s)
    ensures !(|s| > 4 && LowerStr(s[..4]) == "dev-")
  {
    assert LowerStr(s)[0] == s[0];
    if |s| > 4 {
      assert LowerStr(s[..4])[0] == s[0];
    }
  }

  /** Dotted digit strings, with at most 5 digits in the major and followed
      by nothing or "-dev", are read by the numeric grammar: the absent
      groups become 0 and the marker becomes stability "dev"
      (parser.go:17-25, 59-74, 169-175). */
  lemma {:induction false} NewVersionOfDotted(ds: seq<string>, t: string)
    requires 1 <= |ds| <= 4 && AllNumbers(ds) && |ds[0]| <= 5 && PlainTail(t)
    ensures NewVersion(DottedText(ds) + t) ==
      Ok(Zero.(major := Value(ds[0]), minor := NumberAt(ds, 1), patch := NumberAt(ds, 2),
               extra := NumberAt(ds, 3), stability := if t == "" then "" else "dev"))
  {
    var s := DottedText(ds) + t;
    DottedNoSpace(ds, t);
    StripAliasNoSpace(s);
    DottedPieces(ds, t);
    DigitStartNoName(s);
    MatchVersionOfDotted(Semver, false, 5, ds, t);
    TryGrammarsSemver(s, VersionMatch(ds, PlainTailOf(t)));
    FromSemverPlain(ds, t);
    NewVersionFound(s, FromSemver(VersionMatch(ds, PlainTailOf(t))));
  }

  /** The decimal text of a version's four numbers. */
  function NumberText(major: nat, minor: nat, patch: nat, extra: nat): string
  {
    NatToString(major) + "." + NatToString(minor) + "." + NatToString(patch) + "." + NatToString(extra)
  }

  /** The dotted text of four strings. */
  lemma {:induction false} DottedFour(a: string, b: string, c: string, d: string)
    ensures DottedText([a, b, c, d]) == a + "." + b + "." + c + "." + d
  {
    var ds := [a, b, c, d];
    assert ds[1..] == [b, c, d];
    assert [b, c, d][1..] == [c, d];
    assert [c, d][1..] == [d];
    assert [d][1..] == [];
    assert DotText([d]) == "." + d;
    assert DotText([c, d]) == "." + c + ("." + d);
    assert DotText([b, c, d]) == "." + b + ("." + c + ("." + d));
  }

  lemma {:induction false} NumberTextDotted(major: nat, minor: nat, patch: nat, extra: nat)
    ensures var ds := [NatToString(major), NatToString(minor), NatToString(patch), NatToString(extra)];
      AllNumbers(ds) && NumberText(major, minor, patch, extra) == DottedText(ds)
  {
    DottedFour(NatToString(major), NatToString(minor), NatToString(patch), NatToString(extra));
  }

  /** The canonical numeric version with the given numbers, no tag, and
      stability "dev" when `t` is "-dev". */
  function PlainVersion(major: nat, minor: nat, patch: nat, extra: nat, t: string): Version
  {
    Zero.(major := major, minor := minor, patch := patch, extra := extra,
          stability := if t == "" then "" else "dev")
  }

  lemma {:induction false} NewVersionOfNumberText(major: nat, minor: nat, patch: nat, extra: nat, t: string)
    requires major < 100000 && PlainTail(t)
    ensures NewVersion(NumberText(major, minor, patch, extra) + t) == Ok(PlainVersion(major, minor, patch, extra, t))
  {
    var ds := [NatToString(major), NatToString(minor), NatToString(patch), NatToString(extra)];
    NumberTextDotted(major, minor, patch, extra);
    NatToStringLength(major, 5);
    NewVersionOfDotted(ds, t);
  }

  /** A version without tag renders as its number text, then "-dev" when its
      stability is "dev" (version.go:47-68). */
  lemma {:induction false} PlainVersionText(major: nat, minor: nat, patch: nat, extra: nat, t: string)
    requires major != Sentinel && PlainTail(t)
    ensures ToString(PlainVersion(major, minor, patch, extra, t)) == NumberText(major, minor, patch, extra) + t
  {
    var v := PlainVersion(major, minor, patch, extra, t);
    var x := NumberText(major, minor, patch, extra);
    assert NumberPart(v) == x;
    if t == "" {
      assert NumericString(v) == x + "" + "" + "";
    } else {
      assert NumericString(v) == x + ("-" + "dev") + "" + "";
    }
  }

  /** Canonical round trip: the text "M.m.p.e", optionally followed by
      "-dev", with a major of at most 5 digits, normalises to the version with
      those numbers, whose `String()` gives the text back (parser.go:59-74,
      version.go:47-68). */
  lemma {:induction false} CanonicalRoundTrip(major: nat, minor: nat, patch: nat, extra: nat, t: string)
    requires major < 100000 && PlainTail(t)
    ensures NewVersion(NumberText(major, minor, patch, extra) + t) == Ok(PlainVersion(major, minor, patch, extra, t))
    ensures ToString(PlainVersion(major, minor, patch, extra, t)) == NumberText(major, minor, patch, extra) + t
  {
    NewVersionOfNumberText(major, minor, patch, extra, t);
    PlainVersionText(major, minor, patch, extra, t);
  }

  // --------------------------------------------------------- NormalizeBranch

  /** The number a branch group stands for: its digits, or the sentinel for
      a wildcard or an absent group. */
  function BranchNumberText(g: string): string
  {
    if |g| >= 2 && IsDigit(g[1]) then g[1..] else "9999999"
  }

  lemma {:induction false} BranchPieceText(g: string)
    requires IsBranchGroup(g)
    ensures ReplaceChar(BranchPiece(g), 'x', "9999999") == "." + BranchNumberText(g)
    ensures |BranchNumberText(g)| > 0 && AllDigits(BranchNumberText(g))
  {
    if g == "" {
      assert BranchPiece(g) == ".x";
      WildNines();
    } else if IsDigit(g[1]) {
      BranchDigitsPiece(g);
    } else {
      BranchWildPiece(g);
    }
  }

  lemma {:induction false} WildNines()
    ensures ReplaceChar(".x", 'x', "9999999") == ".9999999"
  {
  }

  lemma {:induction false} BranchDigitsPiece(g: string)
    requires IsBranchGroup(g) && g != "" && IsDigit(g[1])
    ensures ReplaceChar(BranchPiece(g), 'x', "9999999") == "." + BranchNumberText(g)
    ensures |BranchNumberText(g)| > 0 && AllDigits(BranchNumberText(g))
  {
    assert AllDigits(g[1..]);
    assert 'X' !in g && '*' !in g && 'x' !in g by {
      forall k | 0 <= k < |g|
        ensures g[k] != 'X' && g[k] != '*' && g[k] != 'x'
      {
        if k > 0 {
          assert g[k] == g[1..][k - 1];
        }
      }
    }
    assert g == "." + g[1..];
  }

  lemma {:induction false} BranchWildPiece(g: string)
    requires IsBranchGroup(g) && g != "" && !IsDigit(g[1])
    ensures ReplaceChar(BranchPiece(g), 'x', "9999999") == "." + BranchNumberText(g)
    ensures |BranchNumberText(g)| > 0 && AllDigits(BranchNumberText(g))
  {
    assert |g| == 2 && IsWild(g[1]);
    WildNines();
    if g[1] == 'X' {
      assert g == ".X";
      assert ReplaceChar(".X", 'X', "x") == ".x";
    } else if g[1] == '*' {
      assert g == ".*";
      assert ReplaceChar(".*", 'X', "x") == ".*";
      assert ReplaceChar(".*", '*', "x") == ".x";
    } else {
      assert g == ".x";
      assert ReplaceChar(".x", 'X', "x") == ".x";
    }
  }

  lemma {:induction false} BranchPiecesFour(groups: seq<string>)
    requires |groups| == 4
    ensures BranchPieces(groups, 0) ==
      BranchPiece(groups[0]) + BranchPiece(groups[1]) + BranchPiece(groups[2]) + BranchPiece(groups[3])
  {
    var p0, p1, p2, p3 := BranchPiece(groups[0]), BranchPiece(groups[1]), BranchPiece(groups[2]), BranchPiece(groups[3]);
    assert BranchPieces(groups, 4) == "";
    assert BranchPieces(groups, 3) == p3 + "";
    assert BranchPieces(groups, 2) == p2 + (p3 + "");
    assert BranchPieces(groups, 1) == p1 + (p2 + (p3 + ""));
    assert BranchPieces(groups, 0) == p0 + (p1 + (p2 + (p3 + "")));
    assert p0 + (p1 + (p2 + (p3 + ""))) == p0 + p1 + p2 + p3;
  }

  lemma {:induction false} AllNumbersFour(a: string, b: string, c: string, d: string)
    requires |a| > 0 && AllDigits(a) && |b| > 0 && AllDigits(b)
    requires |c| > 0 && AllDigits(c) && |d| > 0 && AllDigits(d)
    ensures AllNumbers([a, b, c, d])
  {
  }

  lemma {:induction false} ReplaceCharFour(a: string, b: string, c: string, d: string, ch: char, rep: string)
    ensures ReplaceChar(a + b + c + d, ch, rep) ==
      ReplaceChar(a, ch, rep) + ReplaceChar(b, ch, rep) + ReplaceChar(c, ch, rep) + ReplaceChar(d, ch, rep)
  {
    ReplaceCharConcat(a + b + c, d, ch, rep);
    ReplaceCharConcat(a + b, c, ch, rep);
    ReplaceCharConcat(a, b, ch, rep);
  }

  /** A digit string is its own branch piece and has no 'x' to replace. */
  lemma {:induction false} DigitsBranchPiece(g: string)
    requires |g| > 0 && AllDigits(g)
    ensures BranchPiece(g) == g && ReplaceChar(g, 'x', "9999999") == g
  {
    assert 'X' !in g && '*' !in g && 'x' !in g by {
      forall k | 0 <= k < |g|
        ensures g[k] != 'X' && g[k] != '*' && g[k] != 'x'
      {
        assert IsDigit(g[k]);
      }
    }
  }

  lemma {:induction false} BranchPiecesReplaced(groups: seq<string>)
    requires |groups| == 4 && |groups[0]| > 0 && AllDigits(groups[0])
    requires IsBranchGroup(groups[1]) && IsBranchGroup(groups[2]) && IsBranchGroup(groups[3])
    ensures ReplaceChar(BranchPieces(groups, 0), 'x', "9999999") ==
      groups[0] + ("." + BranchNumberText(groups[1])) + ("." + BranchNumberText(groups[2])) + ("." + BranchNumberText(groups[3]))
  {
    BranchPieceText(groups[1]);
    BranchPieceText(groups[2]);
    BranchPieceText(groups[3]);
    DigitsBranchPiece(groups[0]);
    BranchPiecesFour(groups);
    ReplaceCharFour(BranchPiece(groups[0]), BranchPiece(groups[1]), BranchPiece(groups[2]), BranchPiece(groups[3]), 'x', "9999999");
  }

  lemma {:induction false} BranchVersionTextOf(groups: seq<string>, r: string)
    requires |groups| == 4 && ReplaceChar(BranchPieces(groups, 0), 'x', "9999999") == r
    ensures BranchVersionText(groups) == r + "-dev"
  {
  }

  lemma {:induction false} BranchVersionTextIs(groups: seq<string>)
    requires |groups| == 4 && |groups[0]| > 0 && AllDigits(groups[0])
    requires IsBranchGroup(groups[1]) && IsBranchGroup(groups[2]) && IsBranchGroup(groups[3])
    ensures BranchVersionText(groups) ==
      groups[0] + "." + BranchNumberText(groups[1]) + "." + BranchNumberText(groups[2]) + "." + BranchNumberText(groups[3]) + "-dev"
  {
    var g0, n1, n2, n3 := groups[0], BranchNumberText(groups[1]), BranchNumberText(groups[2]), BranchNumberText(groups[3]);
    BranchPiecesReplaced(groups);
    DotsRegroup(g0, n1, n2, n3);
    BranchVersionTextOf(groups, g0 + "." + n1 + "." + n2 + "." + n3);
  }

  lemma {:induction false} DotsRegroup(g0: string, n1: string, n2: string, n3: string)
    ensures g0 + ("." + n1) + ("." + n2) + ("." + n3) == g0 + "." + n1 + "." + n2 + "." + n3
  {
  }

  lemma {:induction false} BranchNumberTextDigits(g: string)
    requires IsBranchGroup(g)
    ensures |BranchNumberText(g)| > 0 && AllDigits(BranchNumberText(g))
  {
    SentinelText();
  }

  /** The version text `NormalizeBranch` builds from a branchRegex match is
      the dotted list of the four numbers, absent and wildcard groups as the
      sentinel, followed by "-dev" (parser.go:108-121). */
  lemma {:induction false} BranchVersionTextDotted(groups: seq<string>)
    requires |groups| == 4 && |groups[0]| > 0 && AllDigits(groups[0])
    requires forall k :: 1 <= k < 4 ==> IsBranchGroup(groups[k])
    ensures var ds := [groups[0], BranchNumberText(groups[1]), BranchNumberText(groups[2]), BranchNumberText(groups[3])];
      AllNumbers(ds) && BranchVersionText(groups) == DottedText(ds) + "-dev"
  {
    var g0, n1, n2, n3 := groups[0], BranchNumberText(groups[1]), BranchNumberText(groups[2]), BranchNumberText(groups[3]);
    assert IsBranchGroup(groups[1]) && IsBranchGroup(groups[2]) && IsBranchGroup(groups[3]);
    BranchNumberTextDigits(groups[1]);
    BranchNumberTextDigits(groups[2]);
    BranchNumberTextDigits(groups[3]);
    AllNumbersFour(g0, n1, n2, n3);
    BranchVersionTextIs(groups);
    DottedFour(g0, n1, n2, n3);
  }

  /** The branch names "master", "trunk" and "default" give the sentinel
      version (parser.go:100-102). */
  lemma {:induction false} NormalizeBranchSentinel(b: string)
    requires b in {"master", "trunk", "default"}
    ensures NormalizeBranch(b) == Ok(SentinelVersion)
  {
    assert LowerStr(b) == b;
    SentinelNames(b);
  }

  /** The numeric value a branch group stands for. */
  function BranchNumber(g: string): nat
  {
    if |g| >= 2 && IsDigit(g[1]) && AllDigits(g[1..]) then Value(g[1..]) else Sentinel
  }

  lemma {:induction false} BranchNumberValue(g: string)
    requires IsBranchGroup(g)
    ensures AllDigits(BranchNumberText(g)) && Value(BranchNumberText(g)) == BranchNumber(g)
  {
    SentinelText();
  }

  lemma {:induction false} NormalizeBranchMatched(b: string, groups: seq<string>)
    requires MatchBranch(b) == Some(groups)
    ensures NormalizeBranch(b) == NewVersion(BranchVersionText(groups))
  {
    assert b !in {"master", "trunk", "default"} by {
      assert IsDigit(b[0]) || b[0] == 'v';
    }
  }

  /** A numeric branch with a major of at most 5 digits has each wildcard
      and each absent component replaced by the sentinel, and stability
      "dev" (parser.go:104-124). */
  lemma {:induction false} NormalizeBranchNumeric(b: string, groups: seq<string>)
    requires MatchBranch(b) == Some(groups) && |groups[0]| <= 5
    ensures NormalizeBranch(b) ==
      Ok(Zero.(major := Value(groups[0]), minor := BranchNumber(groups[1]), patch := BranchNumber(groups[2]),
               extra := BranchNumber(groups[3]), stability := "dev"))
  {
    var ds := [groups[0], BranchNumberText(groups[1]), BranchNumberText(groups[2]), BranchNumberText(groups[3])];
    assert IsBranchGroup(groups[1]) && IsBranchGroup(groups[2]) && IsBranchGroup(groups[3]);
    NormalizeBranchMatched(b, groups);
    BranchVersionTextDotted(groups);
    NewVersionOfDotted(ds, "-dev");
    BranchNumberValue(groups[1]);
    BranchNumberValue(groups[2]);
    BranchNumberValue(groups[3]);
  }

  /** Any other name becomes the branch "dev-" + name (parser.go:123-124). */
  lemma {:induction false} NormalizeBranchOther(b: string)
    requires |b| > 0 && b !in {"master", "trunk", "default"} && MatchBranch(b).None?
    requires MatchAlias("dev-" + b).None? && !IsSentinelName("dev-" + b)
    ensures NormalizeBranch(b) == Ok(Zero.(parsed := "dev-" + b, isBranch := true))
  {
    var s := "dev-" + b;
    assert s[..4] == "dev-" && s[4..] == b;
    assert LowerStr("dev-") == "dev-";
    DevPrefixBranch(s);
  }

  // ------------------------------------------------------- stability helpers

  /** `expandStability` is idempotent: its outputs are fixed points
      (parser.go:127-140). */
  lemma {:induction false} ExpandStabilityIdempotent(s: string)
    ensures ExpandStability(ExpandStability(s)) == ExpandStability(s)
  {
    var r := ExpandStability(s);
    if r != s {
      assert r in {"alpha", "beta", "patch", "RC"};
      ExpandCanonical(r);
    }
  }

  lemma {:induction false} LowerRC()
    ensures LowerStr("RC") == "rc"
  {
    var l := LowerStr("RC");
    assert l[0] == Lower('R') == 'r';
    assert l[1] == Lower('C') == 'c';
    assert l == "rc";
  }

  /** The four names `expandStability` produces are left as they are. */
  lemma {:induction false} ExpandCanonical(r: string)
    requires r in {"alpha", "beta", "patch", "RC"}
    ensures ExpandStability(r) == r
  {
    if r == "RC" {
      LowerRC();
    } else if r == "alpha" {
      LowerStrNoUpper(r);
    } else if r == "beta" {
      LowerStrNoUpper(r);
    } else {
      LowerStrNoUpper(r);
    }
  }

  /** The short and long tag names expand to the canonical names, in any
      case (parser.go:127-140). */
  lemma {:induction false} ExpandStabilityNames(s: string)
    ensures LowerStr(s) in {"a", "alpha"} <==> ExpandStability(s) == "alpha"
    ensures LowerStr(s) in {"b", "beta"} <==> ExpandStability(s) == "beta"
    ensures LowerStr(s) in {"p", "pl"} ==> ExpandStability(s) == "patch"
    ensures LowerStr(s) == "rc" <==> ExpandStability(s) == "RC"
    ensures LowerStr(s) !in {"a", "alpha", "b", "beta", "p", "pl", "rc"} ==> ExpandStability(s) == s
  {
    if ExpandStability(s) == s {
      if s == "alpha" { assert LowerStr(s) == "alpha"; }
      if s == "beta" { assert LowerStr(s) == "beta"; }
      if s == "RC" { assert LowerStr(s) == "rc"; }
    }
  }

  /** The "dev-" prefix or "-dev" suffix `ParseStability` checks first. */
  predicate DevAffix(s: string)
  {
    |s| >= 4 && (LowerStr(s[..4]) == "dev-" || LowerStr(s[|s| - 4..]) == "-dev")
  }

  /** `ParseStability` gives "" only for "", "dev" for a "dev-" prefix or a
      "-dev" suffix, and otherwise one of the five rank names, "stable"
      when no tag appears (parser.go:142-167). */
  lemma {:induction false} ParseStabilityCases(s: string)
    ensures ParseStability(s) == "" <==> s == ""
    ensures ParseStability(s) in {"", "dev", "alpha", "beta", "RC", "stable"}
    ensures DevAffix(s) ==> ParseStability(s) == "dev"
    ensures s != "" && FindTag(s).None? && !DevAffix(s) ==> ParseStability(s) == "stable"
  {
  }

  /** The stability each alternative of the tag group stands for, in the
      order of `Tags`: "a" and "alpha" are alpha, "b" and "beta" beta, "rc"
      RC, "dev" dev, and "stable", "patch", "pl" and "p" stable
      (parser.go:150-166). */
  const TagStability: seq<string> := ["dev", "stable", "beta", "beta", "RC", "alpha", "alpha", "stable", "stable", "stable"]

  /** Without a "dev" affix, the stability is the one the alternative of
      the leftmost tag stands for (parser.go:151-166). */
  lemma {:induction false} ParseStabilityOfTag(s: string, p: nat, k: nat)
    requires s != "" && !DevAffix(s) && LeftmostTag(s, 0, p, k)
    ensures ParseStability(s) == TagStability[k]
  {
    var t := s[p..p + |Tags[k]|];
    assert FindTag(s) == Some(t);
    assert LowerStr(t) == Tags[k];
    TagStabilityTable(k);
  }

  lemma {:induction false} TagStabilityTable(k: nat)
    requires k < |Tags|
    ensures StabilityOfTag(Tags[k]) == TagStability[k]
  {
  }

  /** The letters the alternatives of the tag group start with. */
  const TagInitials: set<char> := {'d', 's', 'b', 'r', 'a', 'p'}

  /** No tag starts at a character that no alternative starts with, in
      either case. */
  lemma {:induction false} NoTagStartsAt(s: string, i: nat)
    requires i < |s| && Lower(s[i]) !in TagInitials
    ensures FirstTagFrom(s, i, 0) == |Tags|
  {
    FirstTagIsTag(s, i);
    forall k | 0 <= k < |Tags|
      ensures !PrefixCIAt(s, i, Tags[k])
    {
      TagInitial(k);
      FirstCharMismatch(s, i, Tags[k]);
    }
  }

  lemma {:induction false} TagInitial(k: nat)
    requires k < |Tags|
    ensures |Tags[k]| >= 1 && Tags[k][0] in TagInitials
  {
  }

  lemma ParseStabilityExamples()
    ensures ParseStability("dev-master") == "dev"
    ensures ParseStability("3.1.2-dev") == "dev"
    ensures ParseStability("2.0B1") == "beta"
    ensures ParseStability("1.2.0a1") == "alpha"
    ensures ParseStability("3.0-RC2") == "RC"
    ensures ParseStability("3.1.2-p1") == "stable"
  {
    assert DevAffix("dev-master") && DevAffix("3.1.2-dev");
    BetaExample();
    AlphaExample();
    RcExample();
    PatchExample();
  }

  lemma RcExample()
    ensures ParseStability("3.0-RC2") == "RC"
  {
    var s := "3.0-RC2";
    NotDevAffix(s);
    forall i | 0 <= i < 4
      ensures FirstTagFrom(s, i, 0) == |Tags|
    {
      NoTagStartsAt(s, i);
    }
    assert |Tags[1]| == 6 && |Tags[2]| == 4;
    FirstCharMismatch(s, 4, Tags[0]);
    FirstCharMismatch(s, 4, Tags[3]);
    assert LowerStr(s[4..6]) == [Lower(s[4]), Lower(s[5])];
    FirstTagFromIs(s, 4, 0, 4);
    ParseStabilityOfTag(s, 4, 4);
  }

  lemma PatchExample()
    ensures ParseStability("3.1.2-p1") == "stable"
  {
    var s := "3.1.2-p1";
    NotDevAffix(s);
    forall i | 0 <= i < 6
      ensures FirstTagFrom(s, i, 0) == |Tags|
    {
      NoTagStartsAt(s, i);
    }
    assert |Tags[1]| == 6 && |Tags[2]| == 4 && |Tags[5]| == 5 && |Tags[7]| == 5;
    FirstCharMismatch(s, 6, Tags[0]);
    FirstCharMismatch(s, 6, Tags[3]);
    FirstCharMismatch(s, 6, Tags[4]);
    FirstCharMismatch(s, 6, Tags[6]);
    assert !PrefixCIAt(s, 6, Tags[8]) by {
      assert LowerStr(s[6..8])[1] == Lower(s[7]);
    }
    OneLetterTag(s, 6, 9);
    ParseStabilityOfTag(s, 6, 9);
  }

  lemma {:induction false} FirstCharMismatch(s: string, i: nat, tag: string)
    requires i < |s| && |tag| >= 1 && Lower(s[i]) != tag[0]
    ensures !PrefixCIAt(s, i, tag)
  {
    if i + |tag| <= |s| {
      assert LowerStr(s[i..i + |tag|])[0] == Lower(s[i]);
    }
  }

  lemma BetaExample()
    ensures ParseStability("2.0B1") == "beta"
  {
    var s := "2.0B1";
    NotDevAffix(s);
    forall i | 0 <= i < 3
      ensures FirstTagFrom(s, i, 0) == |Tags|
    {
      NoTagStartsAt(s, i);
    }
    assert |Tags[0]| == 3 && |Tags[1]| == 6 && |Tags[2]| == 4;
    OneLetterTag(s, 3, 3);
    ParseStabilityOfTag(s, 3, 3);
  }

  lemma AlphaExample()
    ensures ParseStability("1.2.0a1") == "alpha"
  {
    var s := "1.2.0a1";
    NotDevAffix(s);
    forall i | 0 <= i < 5
      ensures FirstTagFrom(s, i, 0) == |Tags|
    {
      NoTagStartsAt(s, i);
    }
    assert !PrefixCIAt(s, 5, Tags[3]) && !PrefixCIAt(s, 5, Tags[4]) by {
      assert LowerStr(s[5..6])[0] == Lower(s[5]);
      assert LowerStr(s[5..7])[0] == Lower(s[5]);
    }
    OneLetterTag(s, 5, 6);
    ParseStabilityOfTag(s, 5, 6);
  }

  /** A tag of one letter matches where that letter is, in either case,
      once the earlier alternatives have failed there. */
  lemma {:induction false} OneLetterTag(s: string, i: nat, k: nat)
    requires i < |s| && k < |Tags| && |Tags[k]| == 1 && Lower(s[i]) == Tags[k][0]
    requires forall j :: 0 <= j < k ==> !PrefixCIAt(s, i, Tags[j])
    ensures FirstTagFrom(s, i, 0) == k
  {
    assert LowerStr(s[i..i + 1]) == [Lower(s[i])];
    assert PrefixCIAt(s, i, Tags[k]);
    FirstTagFromIs(s, i, 0, k);
  }

  lemma {:induction false} FirstTagFromIs(s: string, i: nat, j: nat, k: nat)
    requires j <= k < |Tags| && PrefixCIAt(s, i, Tags[k])
    requires forall m :: j <= m < k ==> !PrefixCIAt(s, i, Tags[m])
    ensures FirstTagFrom(s, i, j) == k
    decreases k - j
  {
    if j < k {
      FirstTagFromIs(s, i, j + 1, k);
    }
  }

  /** A text that starts with a digit and ends with a digit has no "dev"
      affix. */
  lemma {:induction false} NotDevAffix(s: string)
    requires |s| >= 4 && IsDigit(s[0]) && IsDigit(s[|s| - 1])
    ensures !DevAffix(s)
  {
    assert LowerStr(s[..4])[0] == Lower(s[0]);
    assert LowerStr(s[|s| - 4..])[3] == Lower(s[|s| - 1]);
  }

  // ---------------------------------------------------------- rejected texts

  /** A text that no grammar and no "dev" suffix accepts is rejected with
      the alias-free text (parser.go:91-96). */
  lemma {:induction false} NoGrammarRejected(s: string)
    requires StripAlias(s) == s && !IsSentinelName(s) && !(|s| > 4 && LowerStr(s[..4]) == "dev-")
    requires MatchSemver(s).None? && MatchDate(s).None? && MatchDevSuffix(s).None?
    ensures NewVersion(s) == Err(InvalidVersion(s))
  {
  }

  /** The date grammar needs four digits at the start (after an optional
      "v"); a text with a non-digit among its first four characters, or
      shorter than four, has no date match (parser.go:27). */
  lemma {:induction false} NoDateWithoutFourDigits(s: string, k: nat)
    requires (|s| == 0 || s[0] != 'v') && k < 4 && (k >= |s| || !IsDigit(s[k]))
    ensures MatchDate(s).None?
  {
    NoDateFrom(s, k, |s|);
  }

  lemma {:induction false} NoDateFrom(s: string, k: nat, e: nat)
    requires k < 4 && (k >= |s| || !IsDigit(s[k])) && e <= |s|
    ensures DateFrom(s, 0, e).None?
    decreases e
  {
    if e >= 4 {
      assert s[0..e][..4][k] == s[k];
      NoDateFrom(s, k, e - 1);
    }
  }

  /** A text without white space that starts with neither a digit nor "v",
      and is neither a sentinel name, a "dev-" branch nor a "dev"-suffixed
      branch, is rejected (parser.go:33-97). */
  lemma {:induction false} NonNumericRejected(s: string)
    requires NoSpace(s) && (s == "" || (!IsDigit(s[0]) && s[0] != 'v'))
    requires !IsSentinelName(s) && !(|s| > 4 && LowerStr(s[..4]) == "dev-")
    requires MatchDevSuffix(s).None?
    ensures NewVersion(s) == Err(InvalidVersion(s))
  {
    StripAliasNoSpace(s);
    assert DigitRun(s, 0) == 0;
    NoDateWithoutFourDigits(s, 0);
    NoGrammarRejected(s);
  }

  /** parser_test.go:80, 81 and 84: "", "a" and "feature-foo" fail. */
  lemma NonNumericExamples()
    ensures NewVersion("").Err? && NewVersion("a").Err? && NewVersion("feature-foo").Err?
  {
    NonNumericRejected("");
    assert LowerStr("a") == "a";
    NonNumericRejected("a");
    FeatureFooRejected("feature-foo");
  }

  lemma {:induction false} FeatureFooRejected(s: string)
    requires s == "feature-foo"
    ensures NewVersion(s).Err?
  {
    assert NoSpace(s) by {
      SpellingNoSpace(s);
    }
    assert !IsSentinelName(s) by {
      assert LowerStr(s)[0] == 'f';
    }
    assert !(|s| > 4 && LowerStr(s[..4]) == "dev-") by {
      assert LowerStr(s[..4])[0] == 'f';
    }
    assert MatchDevSuffix(s).None? by {
      assert LowerStr(s[|s| - 3..])[0] == 'f';
    }
    NonNumericRejected(s);
  }

  /** A separator followed by a character that starts neither a tag, the
      "dev" state nor metadata ends every numeric match (parser.go:17-25). */
  lemma {:induction false} JunkAfterSeparator(s: string, i: nat)
    requires i + 1 < |s| && IsTagSep(s[i]) && FirstTagFrom(s, i + 1, 0) == |Tags|
    requires s[i + 1] != '+' && !IsDotDash(s[i + 1]) && Lower(s[i + 1]) != 'd'
    ensures TailFrom(Semver, s, i).None?
  {
    FirstCharMismatch(s, i + 1, "dev");
    FirstCharMismatch(s, i, "dev");
    assert StateLen(s, i + 1) == 0;
    assert StateLen(s, i) == 0;
  }

  /** A lone digit is a run of one. */
  lemma {:induction false} SingleDigitRun(s: string, i: nat)
    requires i < |s| && IsDigit(s[i]) && (i + 1 == |s| || !IsDigit(s[i + 1]))
    ensures DigitRun(s, i) == 1
  {
    assert DigitRun(s, i + 1) == 0;
  }

  /** A group ".D" of one digit, then the groups after it. */
  lemma {:induction false} DotDigitGroup(s: string, i: nat, max: nat)
    requires max > 0 && i + 2 <= |s| && s[i] == '.' && IsDigit(s[i + 1])
    requires i + 2 == |s| || !IsDigit(s[i + 2])
    ensures DotGroups(s, i, max).1 == DotGroups(s, i + 2, max - 1).1
  {
    SingleDigitRun(s, i + 1);
  }

  /** No group starts at `i`. */
  lemma {:induction false} NoDotGroup(s: string, i: nat, max: nat)
    requires i <= |s| && (max == 0 || i + 1 >= |s| || s[i] != '.' || !IsDigit(s[i + 1]))
    ensures DotGroups(s, i, max).1 == i
  {
  }

  /** The numeric grammar fails when the tail after the dotted numbers
      fails (parser.go:17-25). */
  lemma {:induction false} SemverTailRejected(s: string, n: nat, e: nat)
    requires |s| > 0 && IsDigit(s[0]) && n == DigitRun(s, 0) && n <= 5
    requires DotGroups(s, n, 3).1 == e && TailFrom(Semver, s, e).None?
    ensures MatchSemver(s).None?
  {
    assert s[0] != 'v';
    assert MatchVersionText(Semver, s, false, 5).None?;
  }

  /** A text starting with a digit that the numeric grammar refuses, with
      no date head and no "dev" suffix, is rejected. */
  lemma {:induction false} NumericRejected(s: string, k: nat)
    requires |s| > 0 && IsDigit(s[0]) && StripAlias(s) == s
    requires MatchSemver(s).None? && k < 4 && (k >= |s| || !IsDigit(s[k]))
    requires |s| < 3 || Lower(s[|s| - 3]) != 'd'
    ensures NewVersion(s) == Err(InvalidVersion(s))
  {
    assert !IsSentinelName(s) && !(|s| > 4 && LowerStr(s[..4]) == "dev-") by {
      DigitStartNoName(s);
    }
    assert MatchDate(s).None? by {
      NoDateWithoutFourDigits(s, k);
    }
    assert MatchDevSuffix(s).None? by {
      if |s| >= 3 {
        assert LowerStr(s[|s| - 3..])[0] == Lower(s[|s| - 3]);
      }
    }
    NoGrammarRejected(s);
  }

  /** parser_test.go:82, 83, 85 and 86: an unknown tag, a fifth number,
      metadata with a space and a Maven "SNAPSHOT" fail. */
  lemma NumericExamples()
    ensures NewVersion("1.0.0-meh").Err?
    ensures NewVersion("1.0.0.0.0").Err?
    ensures NewVersion("1.0.0+foo bar").Err?
    ensures NewVersion("1.0.1-SNAPSHOT").Err?
  {
    MehExample();
    FifthExample();
    SpacedExample();
    SnapshotExample();
  }

  lemma MehExample()
    ensures NewVersion("1.0.0-meh").Err?
  {
    NoTagStartsAt("1.0.0-meh", 6);
    ThreeNumbersThenJunk("1.0.0-meh");
  }

  lemma FifthExample()
    ensures NewVersion("1.0.0.0.0").Err?
  {
    FifthNumberRejected("1.0.0.0.0");
  }

  lemma SpacedExample()
    ensures NewVersion("1.0.0+foo bar").Err?
  {
    SpacedMetadataRejected("1.0.0+foo bar");
  }

  lemma SnapshotExample()
    ensures NewVersion("1.0.1-SNAPSHOT").Err?
  {
    var s := "1.0.1-SNAPSHOT";
    SnapshotShape(s);
    SnapshotNoTag(s);
    ThreeNumbersThenJunk(s);
  }

  lemma {:induction false} SnapshotShape(s: string)
    requires s == "1.0.1-SNAPSHOT"
    ensures |s| == 14 && NoSpace(s) && Lower(s[6]) == 's' && Lower(s[7]) == 'n'
    ensures IsDigit(s[0]) && s[1] == '.' && IsDigit(s[2]) && s[3] == '.' && IsDigit(s[4]) && s[5] == '-'
    ensures s[6] != '+' && !IsDotDash(s[6]) && !IsDigit(s[6]) && Lower(s[6]) != 'd'
    ensures Lower(s[|s| - 3]) != 'd'
  {
    assert |s| == 14;
    assert NoSpace(s);
  }

  /** Three one-digit numbers, a "-" and a word that starts no tag, no
      state and no metadata are rejected (parser.go:17-27, 91-96). */
  lemma {:induction false} ThreeNumbersThenJunk(s: string)
    requires |s| >= 7 && NoSpace(s)
    requires IsDigit(s[0]) && s[1] == '.' && IsDigit(s[2]) && s[3] == '.' && IsDigit(s[4]) && s[5] == '-'
    requires FirstTagFrom(s, 6, 0) == |Tags| && s[6] != '+' && !IsDotDash(s[6]) && !IsDigit(s[6]) && Lower(s[6]) != 'd'
    requires Lower(s[|s| - 3]) != 'd'
    ensures NewVersion(s) == Err(InvalidVersion(s))
  {
    StripAliasNoSpace(s);
    SingleDigitRun(s, 0);
    assert DotGroups(s, 1, 3).1 == 5 by {
      DotDigitGroup(s, 1, 3);
      DotDigitGroup(s, 3, 2);
      NoDotGroup(s, 5, 1);
    }
    assert TailFrom(Semver, s, 5).None? by {
      JunkAfterSeparator(s, 5);
    }
    SemverTailRejected(s, 1, 5);
    NumericRejected(s, 1);
  }

  /** Five numbers: the grammar stops after four, and ".0" is no tail. */
  lemma {:induction false} FifthNumberRejected(s: string)
    requires |s| == 9 && NoSpace(s) && s[1] == '.' && s[3] == '.' && s[5] == '.' && s[7] == '.'
    requires IsDigit(s[0]) && IsDigit(s[2]) && IsDigit(s[4]) && IsDigit(s[6]) && IsDigit(s[8])
    ensures NewVersion(s) == Err(InvalidVersion(s))
  {
    StripAliasNoSpace(s);
    SingleDigitRun(s, 0);
    DotDigitGroup(s, 1, 3);
    DotDigitGroup(s, 3, 2);
    DotDigitGroup(s, 5, 1);
    NoDotGroup(s, 7, 0);
    NoTagStartsAt(s, 8);
    JunkAfterSeparator(s, 7);
    SemverTailRejected(s, 1, 7);
    NumericRejected(s, 1);
  }

  /** "SNAPSHOT" starts like "stable" but is none of the tags. */
  lemma {:induction false} SnapshotNoTag(s: string)
    requires |s| >= 12 && Lower(s[6]) == 's' && Lower(s[7]) == 'n'
    ensures FirstTagFrom(s, 6, 0) == |Tags|
  {
    FirstTagIsTag(s, 6);
    forall k | 0 <= k < |Tags|
      ensures !PrefixCIAt(s, 6, Tags[k])
    {
      TagInitial(k);
      if k == 1 {
        assert LowerStr(s[6..12])[1] == Lower(s[7]);
      } else {
        assert Tags[k][0] != 's';
        FirstCharMismatch(s, 6, Tags[k]);
      }
    }
  }

  /** Metadata with a space: neither an alias nor semver metadata. */
  lemma {:induction false} SpacedMetadataRejected(s: string)
    requires |s| == 13 && IsDigit(s[0]) && s[1] == '.' && IsDigit(s[2]) && s[3] == '.' && IsDigit(s[4])
    requires s[5] == '+' && NoSpace(s[..9]) && s[9] == ' ' && s[10] == 'b' && Lower(s[10]) != 'd'
    ensures NewVersion(s) == Err(InvalidVersion(s))
  {
    SpacedMetadataNoAlias(s);
    SingleDigitRun(s, 0);
    DotDigitGroup(s, 1, 3);
    DotDigitGroup(s, 3, 2);
    NoDotGroup(s, 5, 1);
    SpacedMetadataTail(s);
    SemverTailRejected(s, 1, 5);
    NumericRejected(s, 1);
  }

  lemma {:induction false} SpacedMetadataNoAlias(s: string)
    requires |s| == 13 && NoSpace(s[..9]) && s[9] == ' ' && s[10] == 'b'
    ensures StripAlias(s) == s
  {
    assert FirstSpace(s, 0) == 9 by {
      assert forall k :: 0 <= k < 9 ==> s[..9][k] == s[k];
    }
    assert s[10..12][0] != "as"[0];
    assert MatchAlias(s).None?;
  }

  lemma {:induction false} SpacedMetadataTail(s: string)
    requires |s| == 13 && s[5] == '+' && s[9] == ' '
    ensures TailFrom(Semver, s, 5).None?
  {
    NoTagStartsAt(s, 5);
    assert !IsMetaBody(s[6..]) by {
      assert s[6..][3] == ' ';
    }
    FirstCharMismatch(s, 5, "dev");
    assert StateLen(s, 5) == 0;
  }

  // -------------------------------------------------------------------- dates

  /** A digit is kept as it is, ahead of what follows. */
  lemma {:induction false} DotsAfterDigitAt(s: string, i: nat)
    requires i < |s| && IsDigit(s[i])
    ensures DotForNonDigitRuns(s[i..]) == [s[i]] + DotForNonDigitRuns(s[i + 1..])
  {
    assert s[i..][1..] == s[i + 1..];
  }

  /** A lone dash before a digit becomes a dot. */
  lemma {:induction false} DotForDashAt(s: string, i: nat)
    requires i + 1 < |s| && s[i] == '-' && IsDigit(s[i + 1])
    ensures DotForNonDigitRuns(s[i..]) == "." + DotForNonDigitRuns(s[i + 1..])
  {
    assert NonDigitRun(s[i..], 1) == 0;
    assert s[i..][1..] == s[i + 1..];
  }

  /** The length of a digit run that ends at a non-digit. */
  lemma {:induction false} DigitRunUpTo(s: string, i: nat, j: nat)
    requires i <= j < |s| && AllDigits(s[i..j]) && !IsDigit(s[j])
    ensures DigitRun(s, i) == j - i
    decreases j - i
  {
    if i < j {
      assert IsDigit(s[i..j][0]);
      assert s[i + 1..j] == s[i..j][1..];
      DigitRunUpTo(s, i + 1, j);
    }
  }

  /** The shape "YYYY-MM-DD": four digits, a dash, two digits, a dash and
      two digits. */
  predicate IsDashedDate(s: string)
  {
    |s| == 10 && s[4] == '-' && s[7] == '-' &&
    AllDigits(s[..4]) && AllDigits(s[5..7]) && AllDigits(s[8..])
  }

  /** A dashed date is a date head. */
  lemma {:induction false} DashedDateHead(s: string)
    requires IsDashedDate(s)
    ensures IsDateHead(s)
  {
    var t := s[4..];
    assert t[0] == '-' && t[1..] == s[5..];
    assert SkipDateSep(t) == s[5..];
    assert IsDigit(s[5..7][0]) && IsDigit(s[5..7][1]);
    assert s[5..][2..] == s[7..];
    assert SkipDateSep(s[7..]) == s[8..];
    assert DateLast(s[7..]);
    assert DateGroups(s[7..], 1);
  }

  /** The numeric grammar refuses a dashed date: the dash after the four
      digits starts neither a number group nor a tag. */
  lemma {:induction false} DashedDateNotSemver(s: string)
    requires IsDashedDate(s)
    ensures MatchSemver(s).None?
  {
    assert s[0..4] == s[..4];
    assert IsDigit(s[..4][0]) && IsDigit(s[5..7][0]);
    DigitRunUpTo(s, 0, 4);
    NoDotGroup(s, 4, 3);
    NoTagStartsAt(s, 5);
    JunkAfterSeparator(s, 4);
    SemverTailRejected(s, 4, 4);
  }

  /** The date grammar matches a dashed date whole, with no tag. */
  lemma {:induction false} DashedDateMatch(s: string)
    requires IsDashedDate(s)
    ensures MatchDate(s) == Some(DateMatch(s, "", ""))
  {
    assert IsDigit(s[..4][0]);
    DashedDateHead(s);
    assert s[0..10] == s;
    FirstTagIsTag(s, 10);
    assert TailFrom(DateEnd, s, 10) == Some(Tail("", "", "", ""));
  }

  /** The dashes of a dashed date become dots. */
  lemma {:induction false} DashedDateDots(s: string)
    requires IsDashedDate(s)
    ensures DotForNonDigitRuns(s) == s[..4] + "." + s[5..7] + "." + s[8..]
  {
    var y := s[..4];
    assert IsDigit(y[0]) && IsDigit(y[1]) && IsDigit(y[2]) && IsDigit(y[3]);
    var t4 := "." + (s[5..7] + ("." + s[8..]));
    DashedDateTailDots(s);
    DotsAfterDigitAt(s, 3);
    DotsAfterDigitAt(s, 2);
    DotsAfterDigitAt(s, 1);
    DotsAfterDigitAt(s, 0);
    assert y == [s[0], s[1], s[2], s[3]];
    PrependFour(s[0], s[1], s[2], s[3], t4);
    assert s[0..] == s;
    DottedRegroup(y, s[5..7], s[8..]);
  }

  /** From the first dash of a dashed date on. */
  lemma {:induction false} DashedDateTailDots(s: string)
    requires IsDashedDate(s)
    ensures DotForNonDigitRuns(s[4..]) == "." + (s[5..7] + ("." + s[8..]))
  {
    var m, d := s[5..7], s[8..];
    assert IsDigit(m[0]) && IsDigit(m[1]);
    assert DotForNonDigitRuns(s[8..]) == d;
    DotForDashAt(s, 7);
    var t7 := "." + d;
    DotsAfterDigitAt(s, 6);
    DotsAfterDigitAt(s, 5);
    assert m == [s[5], s[6]];
    PrependTwo(s[5], s[6], t7);
    DotForDashAt(s, 4);
  }

  lemma {:induction false} PrependTwo(a: char, b: char, t: string)
    ensures [a] + ([b] + t) == [a, b] + t
  {
  }

  lemma {:induction false} PrependFour(a: char, b: char, c: char, e: char, t: string)
    ensures [a] + ([b] + ([c] + ([e] + t))) == [a, b, c, e] + t
  {
  }

  lemma {:induction false} DottedRegroup(y: string, m: string, d: string)
    ensures y + ("." + (m + ("." + d))) == y + "." + m + "." + d
  {
  }

  /** A dashed date has no white space. */
  lemma {:induction false} DashedDateNoSpace(s: string)
    requires IsDashedDate(s)
    ensures NoSpace(s)
  {
    forall k | 0 <= k < |s|
      ensures !IsSpace(s[k])
    {
      if k < 4 {
        assert IsDigit(s[..4][k]);
      } else if 4 < k < 7 {
        assert IsDigit(s[5..7][k - 5]);
      } else if 7 < k {
        assert IsDigit(s[8..][k - 8]);
      }
    }
  }

  /** Of the grammars, only the date grammar accepts a dashed date. */
  lemma {:induction false} DashedDateGrammars(s: string)
    requires IsDashedDate(s)
    ensures TryGrammars(s) == Found(FromDate(DateMatch(s, "", "")))
  {
    assert IsDigit(s[..4][0]);
    DigitStartNoName(s);
    DashedDateNotSemver(s);
    DashedDateMatch(s);
  }

  /** A date head with no tag becomes a date version holding the head with
      its separators turned into dots (parser.go:76-89). */
  lemma {:induction false} UntaggedDate(h: string)
    ensures FromDate(DateMatch(h, "", "")) == Zero.(parsed := DotForNonDigitRuns(h), isDate := true)
  {
    assert LowerStr("") == "";
  }

  /** A date version with no stability or patch prints its dotted text
      alone (version.go:74-89). */
  lemma {:induction false} DateText(p: string)
    ensures ToString(Zero.(parsed := p, isDate := true)) == p
  {
  }

  /** A date written "YYYY-MM-DD" is read by the date grammar, not the
      numeric one, and prints with dots for its dashes (parser.go:17-27,
      76-89; version.go:74-89). */
  lemma {:induction false} DashedDate(s: string)
    requires IsDashedDate(s)
    ensures NewVersion(s) == Ok(Zero.(parsed := s[..4] + "." + s[5..7] + "." + s[8..], isDate := true))
    ensures ToString(NewVersion(s).value) == s[..4] + "." + s[5..7] + "." + s[8..]
  {
    DashedDateNoSpace(s);
    StripAliasNoSpace(s);
    DashedDateGrammars(s);
    NewVersionFound(s, FromDate(DateMatch(s, "", "")));
    UntaggedDate(s);
    DashedDateDots(s);
    DateText(s[..4] + "." + s[5..7] + "." + s[8..]);
  }

  /** parser_test.go:35: "2010-01-02" is a date and prints "2010.01.02". */
  lemma DateExample()
    ensures NewVersion("2010-01-02").Ok?
    ensures NewVersion("2010-01-02").value.isDate
    ensures ToString(NewVersion("2010-01-02").value) == "2010.01.02"
  {
    DateExampleText("2010-01-02");
    DashedDate("2010-01-02");
  }

  lemma {:induction false} DateExampleText(s: string)
    requires s == "2010-01-02"
    ensures IsDashedDate(s) && s[..4] + "." + s[5..7] + "." + s[8..] == "2010.01.02"
  {
    assert s[..4] == "2010" && s[5..7] == "01" && s[8..] == "02";
    assert "2010" + "." == "2010.";
    assert "2010." + "01" == "2010.01";
    assert "2010.01" + "." == "2010.01.";
    assert "2010.01." + "02" == "2010.01.02";
  }

  /** A date does not survive a round trip: its rendering "2010.01.02"
      parses as the plain version 2010.1.2.0, not as a date
      (parser.go:59-89). */
  lemma DateRenderingReparses()
    ensures NewVersion("2010-01-02").Ok?
    ensures var w := NewVersion(ToString(NewVersion("2010-01-02").value));
      w.Ok? && !w.value.isDate && w.value.major == 2010 && w.value.minor == 1 && w.value.patch == 2
  {
    DateExample();
    var ds := DateNumbers("2010.01.02");
    NewVersionOfDotted(ds, "");
    assert DottedText(ds) + "" == "2010.01.02";
  }

  lemma {:induction false} DateNumbers(s: string) returns (ds: seq<string>)
    requires s == "2010.01.02"
    ensures 1 <= |ds| <= 4 && AllNumbers(ds) && |ds[0]| <= 5 && DottedText(ds) == s
    ensures Value(ds[0]) == 2010 && NumberAt(ds, 1) == 1 && NumberAt(ds, 2) == 2
  {
    ds := ["2010", "01", "02"];
    DateDots(ds);
    DateValues(ds);
  }

  lemma {:induction false} DateDots(ds: seq<string>)
    requires ds == ["2010", "01", "02"]
    ensures DottedText(ds) == "2010.01.02"
  {
    assert ds[1..][1..][1..] == [];
    assert DotText(ds[1..][1..]) == "." + "02" + "";
    assert DotText(ds[1..]) == "." + "01" + ("." + "02" + "");
    assert "2010" + ("." + "01" + ("." + "02" + "")) == "2010.01.02";
  }

  lemma {:induction false} DateValues(ds: seq<string>)
    requires ds == ["2010", "01", "02"]
    ensures AllNumbers(ds) && Value(ds[0]) == 2010 && NumberAt(ds, 1) == 1 && NumberAt(ds, 2) == 2
  {
    assert "2010"[..3] == "201" && "201"[..2] == "20" && "20"[..1] == "2" && "2"[..0] == "";
    assert Value("2") == 2 && Value("20") == 20 && Value("201") == 201 && Value("2010") == 2010;
    assert "01"[..1] == "0" && "02"[..1] == "0" && "0"[..0] == "";
    assert Value("0") == 0 && Value("01") == 1 && Value("02") == 2;
  }
}
