/** Properties of the constraint model: what a tree matches, that the parser
    only builds trees `String` can render, the tokenizer on plain input, and
    the collapse of two contiguous ranges. */
module ConstraintFacts {
  import opened Text
  import opened Grammar
  import opened Versions
  import opened Errors
  import opened Comparison
  import opened ConstraintGrammar
  import opened Constraints
  import opened Parser
  import opened ParserFacts

  // ---------------------------------------------------------------- Matches

  lemma {:induction false} AllMatchFromMeaning(cs: seq<Constraint>, i: nat, v: Version, rk: Ranking)
    ensures AllMatchFrom(cs, i, v, rk) <==> forall k :: i <= k < |cs| ==> Matches(cs[k], v, rk)
    decreases |cs| - i
  {
    if i < |cs| {
      AllMatchFromMeaning(cs, i + 1, v, rk);
    }
  }

  lemma {:induction false} AnyMatchesFromMeaning(cs: seq<Constraint>, i: nat, v: Version, rk: Ranking)
    ensures AnyMatchesFrom(cs, i, v, rk) <==> exists k :: i <= k < |cs| && Matches(cs[k], v, rk)
    decreases |cs| - i
  {
    if i < |cs| {
      AnyMatchesFromMeaning(cs, i + 1, v, rk);
    }
  }

  /** A conjunctive node matches exactly when all its children do, a
      disjunctive one when some child does; a match-anything node matches
      every version (constraint.go:106-133). */
  lemma {:induction false} NodeMatches(conjunctive: bool, cs: seq<Constraint>, v: Version, rk: Ranking)
    requires |cs| >= 1
    ensures conjunctive ==> (Matches(Node(conjunctive, cs), v, rk) <==> forall k :: 0 <= k < |cs| ==> Matches(cs[k], v, rk))
    ensures !conjunctive ==> (Matches(Node(conjunctive, cs), v, rk) <==> exists k :: 0 <= k < |cs| && Matches(cs[k], v, rk))
    ensures Matches(Empty, v, rk)
  {
    AllMatchFromMeaning(cs, 0, v, rk);
    AnyMatchesFromMeaning(cs, 0, v, rk);
  }

  /** `[>= low < high]` is the half-open interval of sort keys. */
  lemma {:induction false} RangeMatches(low: Version, high: Version, v: Version, rk: Ranking)
    ensures Matches(Range(low, high), v, rk) <==>
      !KeyLess(KeyOf(v, rk), KeyOf(low, rk)) && KeyLess(KeyOf(v, rk), KeyOf(high, rk))
  {
    var cs := [Leaf(">=", low), Leaf("<", high)];
    CompareOpMeaning(v, low, ">=", rk);
    CompareOpMeaning(v, high, "<", rk);
    assert AllMatchFrom(cs, 2, v, rk);
    assert AllMatchFrom(cs, 1, v, rk) == Matches(cs[1], v, rk);
    assert AllMatchFrom(cs, 0, v, rk) == (Matches(cs[0], v, rk) && Matches(cs[1], v, rk));
  }

  // ---------------------------------------------------------- basic bounds

  /** The operator a simple comparison ends up with is one of the six that
      `Compare` knows, and it means what the written operator means, an
      absent one meaning equality (constraint.go:22, 284-305). */
  lemma {:induction false} NormalizeOperatorMeaning(op: string, v: Version, w: Version, rk: Ranking)
    requires op in {"", "<>", "!=", ">=", ">", "<=", "<", "==", "="}
    ensures NormalizeOperator(op) in {"==", "!=", ">", ">=", "<", "<="}
    ensures CompareOp(v, w, NormalizeOperator(op), rk) == CompareOp(v, w, if op == "" then "==" else op, rk)
  {
  }

  /** `basicRange` builds a single bound whose operator is one of the six
      and which matches exactly the versions the written comparison accepts
      (constraint.go:267-306). */
  lemma {:induction false} BasicRangeMeaning(constraint: string, v: Version, rk: Ranking)
    ensures BasicRange(constraint).Ok? ==>
      var c := BasicRange(constraint).value;
      var op := BasicVersionText(constraint).0;
      c.Leaf? && c.op in {"==", "!=", ">", ">=", "<", "<="} &&
      (Matches(c, v, rk) <==> CompareOp(v, c.version, if op == "" then "==" else op, rk))
  {
    if BasicRange(constraint).Ok? {
      var op := BasicVersionText(constraint).0;
      var w := BasicRange(constraint).value.version;
      BasicOperatorWritten(constraint);
      assert BasicRange(constraint).value == Leaf(NormalizeOperator(op), w);
      NormalizeOperatorMeaning(op, v, w, rk);
    }
  }

  /** The operator `basicRange` reads is one a comparison can be written with. */
  lemma {:induction false} BasicOperatorWritten(constraint: string)
    ensures BasicVersionText(constraint).0 in {"", "<>", "!=", ">=", ">", "<=", "<", "==", "="}
  {
    var text := match MatchModifier(constraint) case Some(md) => md.head case None => constraint;
    assert BasicVersionText(constraint).0 == MatchComparison(text).0;
  }

  /** `hyphenRange` with an exact upper side accepts the closed interval
      from the lower version (with "-dev" when untagged) to the upper one
      (constraint.go:316-340). */
  lemma {:induction false} HyphenInclusiveMeaning(constraint: string, v: Version, rk: Ranking)
    requires MatchHyphen(constraint).Some? && HyphenRange(constraint).Ok?
    requires UpperIsExact(MatchHyphen(constraint).value.highMatch)
    ensures var h := MatchHyphen(constraint).value;
      NewVersion(HyphenLowText(h)).Ok? && NewVersion(h.high).Ok? &&
      var low := NewVersion(HyphenLowText(h)).value;
      var high := NewVersion(h.high).value;
      (Matches(HyphenRange(constraint).value, v, rk) <==>
        !KeyLess(KeyOf(v, rk), KeyOf(low, rk)) && !KeyLess(KeyOf(high, rk), KeyOf(v, rk)))
  {
    var h := MatchHyphen(constraint).value;
    var low := NewVersion(HyphenLowText(h)).value;
    var high := NewVersion(h.high).value;
    assert HyphenRange(constraint).value == Node(true, [Leaf(">=", low), Leaf("<=", high)]);
    ClosedMatches(low, high, v, rk);
  }

  lemma {:induction false} ClosedMatches(low: Version, high: Version, v: Version, rk: Ranking)
    ensures Matches(Node(true, [Leaf(">=", low), Leaf("<=", high)]), v, rk) <==>
      !KeyLess(KeyOf(v, rk), KeyOf(low, rk)) && !KeyLess(KeyOf(high, rk), KeyOf(v, rk))
  {
    var cs := [Leaf(">=", low), Leaf("<=", high)];
    CompareOpMeaning(v, low, ">=", rk);
    CompareOpMeaning(v, high, "<=", rk);
    assert AllMatchFrom(cs, 2, v, rk);
    assert AllMatchFrom(cs, 1, v, rk) == Matches(cs[1], v, rk);
    assert AllMatchFrom(cs, 0, v, rk) == (Matches(cs[0], v, rk) && Matches(cs[1], v, rk));
  }

  /** `hyphenRange` with a partial upper side accepts from the lower version
      up to, excluding, the upper side's next minor (or next major when only
      the major is written) as a "-dev" version (constraint.go:341-363). */
  lemma {:induction false} HyphenPartialMeaning(constraint: string, v: Version, rk: Ranking)
    requires MatchHyphen(constraint).Some? && HyphenRange(constraint).Ok?
    requires !UpperIsExact(MatchHyphen(constraint).value.highMatch)
    ensures var h := MatchHyphen(constraint).value;
      var g := Groups(h.highMatch);
      var next := ExpandedText(g, if g[2] == "" then 1 else 2, 1, "0", "-dev");
      NewVersion(HyphenLowText(h)).Ok? && NewVersion(next).Ok? &&
      var low := NewVersion(HyphenLowText(h)).value;
      var high := NewVersion(next).value;
      (Matches(HyphenRange(constraint).value, v, rk) <==>
        !KeyLess(KeyOf(v, rk), KeyOf(low, rk)) && KeyLess(KeyOf(v, rk), KeyOf(high, rk)))
  {
    var h := MatchHyphen(constraint).value;
    var g := Groups(h.highMatch);
    var next := ExpandedText(g, if g[2] == "" then 1 else 2, 1, "0", "-dev");
    var low := NewVersion(HyphenLowText(h)).value;
    assert HyphenRange(constraint).value == Range(low, NewVersion(next).value);
    RangeMatches(low, NewVersion(next).value, v, rk);
  }

  // ------------------------------------------------------------ well-formed

  lemma {:induction false} ContributionShape(c: Constraint)
    requires WellFormed(c)
    ensures |Contribution(c)| >= 1
    ensures forall k :: 0 <= k < |Contribution(c)| ==> WellFormed(Contribution(c)[k])
  {
  }

  lemma {:induction false} AndChildrenShape(tokens: seq<string>, i: nat)
    requires i <= |tokens|
    ensures AndChildren(tokens, i).Ok? ==>
      var cs := AndChildren(tokens, i).value;
      |cs| >= |tokens| - i && forall k :: 0 <= k < |cs| ==> WellFormed(cs[k])
    decreases |tokens| - i
  {
    if i < |tokens| {
      var c := ParseConstraint(tokens[i]);
      if c.Ok? {
        ContributionShape(c.value);
        AndChildrenShape(tokens, i + 1);
      }
    }
  }

  /** An OR piece parses to a well-formed tree that is never a disjunction. */
  lemma {:induction false} OrGroupShape(piece: string)
    ensures OrGroup(piece).Ok? ==>
      Simple(OrGroup(piece).value)
  {
    var ands := AndConstraints(piece);
    if ands.Ok? && |ands.value| > 1 {
      AndChildrenShape(ands.value, 0);
    }
  }

  lemma {:induction false} OrGroupsShape(pieces: seq<string>, i: nat)
    requires i <= |pieces|
    ensures OrGroups(pieces, i).Ok? ==>
      var gs := OrGroups(pieces, i).value;
      |gs| == |pieces| - i && forall k :: 0 <= k < |gs| ==> Simple(gs[k])
    decreases |pieces| - i
  {
    if i < |pieces| {
      OrGroupShape(pieces[i]);
      OrGroupsShape(pieces, i + 1);
    }
  }

  /** Every constraint `NewConstraint` returns can be rendered by `String`:
      each node it builds has children (constraint.go:34-104, 135-174). */
  lemma {:induction false} ConstraintOfWellFormed(constraint: string)
    ensures ConstraintOf(constraint).Ok? ==> WellFormed(ConstraintOf(constraint).value)
  {
    var pieces := Split(OrSep, ConstraintText(constraint));
    OrGroupsShape(pieces, 0);
    var r := OrGroups(pieces, 0);
    if r.Ok? {
      assert ConstraintOf(constraint) == Ok(Combine(r.value));
      CombineWellFormed(r.value);
    }
  }

  lemma {:induction false} CombineWellFormed(groups: seq<Constraint>)
    requires |groups| >= 1 && forall k :: 0 <= k < |groups| ==> Simple(groups[k])
    ensures WellFormed(Combine(groups))
  {
    if |groups| == 2 && Contiguous(groups[0], groups[1]) {
      assert Combine(groups) == CollapseAsWritten(groups[0], groups[1]);
    }
  }

  // -------------------------------------------------------------- tokenizer

  lemma {:induction false} SepEndNone(sep: Separator, s: string, p: nat)
    requires SepFree(sep, s) && p <= |s|
    ensures SepEnd(sep, s, p).None?
  {
    var w := SpaceRun(s, p);
    if sep == AndSep {
      var run := s[p..p + w];
      forall k | 0 <= k < |run|
        ensures run[k] != ' '
      {
        assert run[k] == s[p + k];
      }
      assert ' ' !in run;
    }
  }

  lemma {:induction false} SplitFromSepFree(sep: Separator, s: string, p: nat)
    requires SepFree(sep, s) && p <= |s|
    ensures SplitFrom(sep, s, 0, p) == [s]
    decreases |s| - p
  {
    if p < |s| {
      SepEndNone(sep, s, p);
      SplitFromSepFree(sep, s, p + 1);
    } else {
      assert s[0..] == s;
    }
  }

  /** A text without a separator character is one piece (constraint.go:49,
      184). */
  lemma {:induction false} SplitSepFree(sep: Separator, s: string)
    requires SepFree(sep, s)
    ensures Split(sep, s) == [s]
  {
    SplitFromSepFree(sep, s, 0);
  }

  lemma {:induction false} SplitFromHead(sep: Separator, s: string, beg: nat, p: nat)
    requires beg <= p <= |s|
    requires forall k :: beg <= k < p ==> !SepChar(sep, s[k])
    ensures var r := SplitFrom(sep, s, beg, p);
      |r[0]| <= |s| - beg && r[0] == s[beg..beg + |r[0]|] && (|r| == 1 ==> r[0] == s[beg..])
    decreases |s| - p
  {
    if p < |s| && SepEnd(sep, s, p).None? {
      SplitFromHead(sep, s, beg, p + 1);
    }
  }

  /** The last piece is a suffix of the text. */
  predicate LastIsSuffix(r: seq<string>, s: string)
  {
    |r| >= 1 && |r[|r| - 1]| <= |s| && r[|r| - 1] == s[|s| - |r[|r| - 1]|..]
  }

  lemma {:induction false} SplitFromLast(sep: Separator, s: string, beg: nat, p: nat)
    requires beg <= p <= |s|
    requires forall k :: beg <= k < p ==> !SepChar(sep, s[k])
    ensures LastIsSuffix(SplitFrom(sep, s, beg, p), s)
    decreases |s| - p
  {
    if p == |s| {
      SplitFromAtEnd(sep, s, beg);
    } else {
      match SepEnd(sep, s, p)
      case Some(e) =>
        SplitFromLast(sep, s, e, e);
        SplitFromSome(sep, s, beg, p, e);
      case None =>
        SplitFromLast(sep, s, beg, p + 1);
        SplitFromNone(sep, s, beg, p);
    }
  }

  lemma {:induction false} SplitFromAtEnd(sep: Separator, s: string, beg: nat)
    requires beg <= |s|
    requires forall k :: beg <= k < |s| ==> !SepChar(sep, s[k])
    ensures LastIsSuffix(SplitFrom(sep, s, beg, |s|), s)
  {
  }

  lemma {:induction false} SplitFromNone(sep: Separator, s: string, beg: nat, p: nat)
    requires beg <= p < |s|
    requires forall k :: beg <= k < p ==> !SepChar(sep, s[k])
    requires SepEnd(sep, s, p).None?
    ensures SplitFrom(sep, s, beg, p) == SplitFrom(sep, s, beg, p + 1)
  {
  }

  lemma {:induction false} SplitFromSome(sep: Separator, s: string, beg: nat, p: nat, e: nat)
    requires beg <= p < |s|
    requires forall k :: beg <= k < p ==> !SepChar(sep, s[k])
    requires SepEnd(sep, s, p) == Some(e)
    ensures LastIsSuffix(SplitFrom(sep, s, e, e), s) ==> LastIsSuffix(SplitFrom(sep, s, beg, p), s)
  {
    var r := SplitFrom(sep, s, beg, p);
    var rest := SplitFrom(sep, s, e, e);
    assert r == [s[beg..p]] + rest;
    assert r[|r| - 1] == rest[|rest| - 1];
  }

  /** The first piece of a split is a prefix of the text and the last a
      suffix, and the text is one piece exactly when it holds no separator
      character (constraint.go:49, 184). */
  lemma {:induction false} SplitPieces(sep: Separator, s: string)
    ensures var r := Split(sep, s);
      && |r[0]| <= |s| && r[0] == s[..|r[0]|]
      && LastIsSuffix(r, s)
      && (|r| == 1 <==> SepFree(sep, s))
  {
    SplitFromHead(sep, s, 0, 0);
    SplitFromLast(sep, s, 0, 0);
    if SepFree(sep, s) {
      SplitSepFree(sep, s);
    }
  }

  /** Parts without operators, "as" or "-" are the tokens, one each
      (constraint.go:198-232). */
  lemma {:induction false} GatherPlain(parts: seq<string>, i: nat)
    requires i <= |parts|
    requires forall k :: i <= k < |parts| ==> parts[k] !in OperatorTokens && parts[k] != "as" && parts[k] != "-"
    ensures Gather(parts, i) == Ok(parts[i..])
    decreases |parts| - i
  {
    if i < |parts| {
      var token := "" + parts[i];
      assert token == parts[i];
      assert parts[i..] == [parts[i]] + parts[i + 1..];
      if i + 1 < |parts| {
        GatherPlain(parts, i + 1);
        assert parts[i] !in OperatorTokens && parts[i + 1] != "as" && parts[i + 1] != "-";
        assert Gather(parts, i) == Prepend([token], Gather(parts, i + 1));
      } else {
        assert parts[i + 1..] == [];
        assert parts[i] !in OperatorTokens;
        assert Gather(parts, i) == Ok([token]);
        assert parts[i..] == [token];
      }
    }
  }

  /** An operator token is glued to the part after it, and "as" joins the
      alias with single spaces (constraint_test.go:77, 215-221). */
  lemma GatherGlues()
    ensures Gather([">", "2.0", "<=", "3.0"], 0) == Ok([">2.0", "<=3.0"])
    ensures Gather(["dev-master", "as", "1.0.0"], 0) == Ok(["dev-master as 1.0.0"])
    ensures Gather(["1.0", "as"], 0) == Err(IndexPanic)
  {
    var ps := [">", "2.0", "<=", "3.0"];
    assert ">" in OperatorTokens && "<=" in OperatorTokens;
    assert ">" + "2.0" == ">2.0" && "<=" + "3.0" == "<=3.0";
    assert Gather(ps, 2) == Ok(["<=3.0"]);
    assert Gather(ps, 0) == Prepend([">2.0"], Gather(ps, 2));
    assert [">2.0"] + ["<=3.0"] == [">2.0", "<=3.0"];
    var qs := ["dev-master", "as", "1.0.0"];
    assert "dev-master" !in OperatorTokens && "1.0" !in OperatorTokens;
    assert "" + "dev-master" + " " + "as" + " " + "1.0.0" == "dev-master as 1.0.0";
    assert Gather(qs, 3) == Ok([]);
    assert Gather(qs, 0) == Prepend(["dev-master as 1.0.0"], Gather(qs, 3));
    assert ["dev-master as 1.0.0"] + [] == ["dev-master as 1.0.0"];
  }

  lemma {:induction false} ModifierHasAt(s: string)
    ensures MatchModifier(s).Some? ==> '@' in s
  {
    var md := MatchModifier(s);
    if md.Some? {
      assert s[|md.value.head|] == '@';
    }
  }

  /** An '@' at `i` that stabilityModifierRegex can end the head at: a known
      stability name follows, and no comma or white space comes before. */
  predicate ModifierAt(s: string, i: nat)
  {
    i < |s| && s[i] == '@' && LowerStr(s[i + 1..]) in ModifierNames
    && forall k :: 0 <= k < i ==> s[k] != ',' && !IsSpace(s[k])
  }

  lemma {:induction false} ModifierFromLeast(s: string, i: nat, j: nat)
    requires i <= j && ModifierAt(s, j)
    requires NoSpace(s[..i]) && ',' !in s[..i]
    ensures ModifierFrom(s, i).Some? && |ModifierFrom(s, i).value.head| <= j
    decreases j - i
  {
    if s[i] == '@' && LowerStr(s[i + 1..]) in ModifierNames {
      assert ModifierFrom(s, i) == Some(Modifier(s[..i], s[i + 1..]));
    } else {
      assert s[i] != ',' && !IsSpace(s[i]);
      ModifierFromStep(s, i);
      ModifierFromLeast(s, i + 1, j);
    }
  }

  /** The head `ModifierFrom` finds from `i` ends at the first '@' from `i`
      on that can end it. */
  predicate FirstModifierFrom(s: string, i: nat, r: Option<Modifier>)
  {
    r.Some? ==>
      (i <= |r.value.head| && ModifierAt(s, |r.value.head|)
       && forall k :: i <= k < |r.value.head| ==> !ModifierAt(s, k))
  }

  lemma {:induction false} ModifierFromFirst(s: string, i: nat)
    requires i <= |s|
    requires NoSpace(s[..i]) && ',' !in s[..i]
    ensures FirstModifierFrom(s, i, ModifierFrom(s, i))
    decreases |s| - i
  {
    if i < |s| {
      if s[i] == '@' && LowerStr(s[i + 1..]) in ModifierNames {
        ModifierFromHere(s, i);
      } else if s[i] != ',' && !IsSpace(s[i]) {
        ModifierFromStep(s, i);
        ModifierFromFirst(s, i + 1);
        ModifierFromSkip(s, i);
      }
    }
  }

  lemma {:induction false} ModifierFromHere(s: string, i: nat)
    requires i < |s| && NoSpace(s[..i]) && ',' !in s[..i]
    requires s[i] == '@' && LowerStr(s[i + 1..]) in ModifierNames
    ensures FirstModifierFrom(s, i, ModifierFrom(s, i))
  {
    assert ModifierFrom(s, i) == Some(Modifier(s[..i], s[i + 1..]));
    CleanHead(s, i);
  }

  lemma {:induction false} ModifierFromStep(s: string, i: nat)
    requires i < |s| && NoSpace(s[..i]) && ',' !in s[..i]
    requires !(s[i] == '@' && LowerStr(s[i + 1..]) in ModifierNames)
    requires s[i] != ',' && !IsSpace(s[i])
    ensures NoSpace(s[..i + 1]) && ',' !in s[..i + 1]
    ensures ModifierFrom(s, i) == ModifierFrom(s, i + 1)
  {
    assert s[..i + 1] == s[..i] + [s[i]];
  }

  lemma {:induction false} ModifierFromSkip(s: string, i: nat)
    requires i < |s| && NoSpace(s[..i]) && ',' !in s[..i]
    requires !(s[i] == '@' && LowerStr(s[i + 1..]) in ModifierNames)
    requires s[i] != ',' && !IsSpace(s[i])
    requires FirstModifierFrom(s, i + 1, ModifierFrom(s, i + 1))
    ensures FirstModifierFrom(s, i, ModifierFrom(s, i))
  {
    ModifierFromStep(s, i);
    assert !ModifierAt(s, i);
  }

  lemma {:induction false} CleanHead(s: string, i: nat)
    requires i <= |s| && NoSpace(s[..i]) && ',' !in s[..i]
    ensures forall k :: 0 <= k < i ==> s[k] != ',' && !IsSpace(s[k])
  {
    forall k | 0 <= k < i
      ensures s[k] != ',' && !IsSpace(s[k])
    {
      assert s[..i][k] == s[k];
    }
  }

  /** stabilityModifierRegex splits at the leftmost '@' that can end the
      lazy head, and matches exactly when there is one (constraint.go:23,
      65-70). */
  lemma {:induction false} ModifierLeftmost(s: string)
    ensures MatchModifier(s).Some? <==> exists i :: 0 <= i < |s| && ModifierAt(s, i)
    ensures MatchModifier(s).Some? ==>
      var h := |MatchModifier(s).value.head|;
      ModifierAt(s, h) && forall k :: 0 <= k < h ==> !ModifierAt(s, k)
  {
    ModifierFromFirst(s, 0);
    if exists i :: 0 <= i < |s| && ModifierAt(s, i) {
      var i :| 0 <= i < |s| && ModifierAt(s, i);
      ModifierFromLeast(s, 0, i);
    }
  }

  lemma {:induction false} DevRefHasHash(s: string)
    ensures MatchDevRef(s).Some? ==> '#' in s
  {
    var dr := MatchDevRef(s);
    if dr.Some? {
      assert s[|dr.value|] == '#';
    }
  }

  lemma {:induction false} DevBranchStep(s: string, h: nat)
    requires 1 <= h <= |s| && RefHeadChar(s[h - 1]) && !RefAt(s, h)
    ensures DevBranchRef(s, h) == DevBranchRef(s, h + 1)
  {
  }

  lemma {:induction false} DevBranchLeast(s: string, h: nat, j: nat)
    requires 1 <= h <= j && RefAt(s, j)
    requires forall k :: h - 1 <= k < j ==> RefHeadChar(s[k])
    ensures DevBranchRef(s, h).Some? && |DevBranchRef(s, h).value| <= j
    decreases j - h
  {
    if !RefAt(s, h) {
      DevBranchStep(s, h);
      DevBranchLeast(s, h + 1, j);
    }
  }

  lemma {:induction false} DevXStep(s: string, h: nat)
    requires 1 <= h <= |s| && RefHeadChar(s[h - 1])
    requires !(PrefixCIAt(s, h, ".x-dev") && RefAt(s, h + 6))
    ensures DevXRef(s, h) == DevXRef(s, h + 1)
  {
  }

  lemma {:induction false} DevXHere(s: string, h: nat)
    requires 1 <= h <= |s| && RefHeadChar(s[h - 1])
    requires PrefixCIAt(s, h, ".x-dev") && RefAt(s, h + 6)
    ensures DevXRef(s, h) == Some(s[..h + 6])
  {
  }

  lemma {:induction false} DevXLeast(s: string, h: nat, j: nat)
    requires 1 <= h <= j && PrefixCIAt(s, j, ".x-dev") && RefAt(s, j + 6)
    requires forall k :: h - 1 <= k < j ==> RefHeadChar(s[k])
    ensures DevXRef(s, h).Some? && |DevXRef(s, h).value| <= j + 6
    decreases j - h
  {
    assert RefHeadChar(s[h - 1]);
    if PrefixCIAt(s, h, ".x-dev") && RefAt(s, h + 6) {
      DevXHere(s, h);
    } else {
      DevXStep(s, h);
      DevXLeast(s, h + 1, j);
    }
  }

  /** devConstraintRegex matches whenever its first alternative can: "dev-",
      a non-empty run of `[^,\s@]`, then '#' and a reference; the lazy run
      ends at or before any such '#' (constraint.go:29). */
  lemma {:induction false} DevRefOfBranch(s: string, j: nat)
    requires PrefixCIAt(s, 0, "dev-") && 5 <= j && RefAt(s, j)
    requires forall k :: 4 <= k < j ==> RefHeadChar(s[k])
    ensures MatchDevRef(s).Some? && 5 <= |MatchDevRef(s).value| <= j
  {
    DevBranchLeast(s, 5, j);
    DevBranchFrom(s, 5);
  }

  lemma {:induction false} DevBranchFrom(s: string, h: nat)
    requires h >= 1
    ensures DevBranchRef(s, h).Some? ==> h <= |DevBranchRef(s, h).value|
    decreases |s| + 1 - h
  {
    if h <= |s| && RefHeadChar(s[h - 1]) && !RefAt(s, h) {
      DevBranchFrom(s, h + 1);
    }
  }

  /** When the first alternative fails, devConstraintRegex matches whenever
      its second can: a non-empty run of `[^,\s@]`, ".x-dev" in any case,
      then '#' and a reference (constraint.go:29). */
  lemma {:induction false} DevRefOfX(s: string, j: nat)
    requires !PrefixCIAt(s, 0, "dev-") || DevBranchRef(s, 5).None?
    requires 1 <= j && PrefixCIAt(s, j, ".x-dev") && RefAt(s, j + 6)
    requires forall k :: 0 <= k < j ==> RefHeadChar(s[k])
    ensures MatchDevRef(s) == DevXRef(s, 1) && MatchDevRef(s).Some?
    ensures |MatchDevRef(s).value| <= j + 6
  {
    DevXLeast(s, 1, j);
  }

  /** An OR piece without a space or comma is one AND token, parsed by
      `parseConstraint` alone (constraint.go:54-83, 176-187). */
  lemma {:induction false} OrGroupOfToken(piece: string)
    requires SepFree(AndSep, piece)
    ensures OrGroup(piece) == ParseConstraint(piece)
  {
    SplitSepFree(AndSep, piece);
    assert AndConstraints(piece) == Ok([piece]);
    assert AndConstraints(piece).Ok?;
    assert AndConstraints(piece).Extract() == [piece];
  }

  /** A token without '@', '#', '|', ' ' or ',' is parsed by
      `parseConstraint` alone (constraint.go:34-104). */
  lemma {:induction false} SingleToken(constraint: string)
    requires '@' !in constraint && '#' !in constraint
    requires SepFree(OrSep, constraint) && SepFree(AndSep, constraint)
    ensures ConstraintOf(constraint) == ParseConstraint(constraint)
  {
    ModifierHasAt(constraint);
    DevRefHasHash(constraint);
    assert ConstraintText(constraint) == constraint;
    SplitSepFree(OrSep, constraint);
    OrGroupOfToken(constraint);
    var pieces := [constraint];
    assert OrGroups(pieces, 1) == Ok([]);
    match ParseConstraint(constraint)
    case Ok(g) =>
      assert pieces[0] == constraint && [g] + [] == [g];
      assert OrGroups(pieces, 0) == Ok([g]);
    case Err(e) =>
      assert OrGroups(pieces, 0) == Err(e);
  }

  /** Past the last '|' no OR separator starts, so the rest is the last
      piece. */
  lemma {:induction false} OrSplitFromTail(s: string, beg: nat, p: nat)
    requires beg <= p <= |s| && forall k :: beg <= k < |s| ==> s[k] != '|'
    ensures SplitFrom(OrSep, s, beg, p) == [s[beg..]]
    decreases |s| - p
  {
    if p < |s| {
      assert SepEnd(OrSep, s, p).None?;
      OrSplitFromTail(s, beg, p + 1);
    }
  }

  /** Before a position `n` with neither white space nor '|' in front of
      it, no OR separator starts. */
  lemma {:induction false} OrSplitFromHead(s: string, n: nat, p: nat)
    requires p <= n <= |s| && forall k :: 0 <= k < n ==> s[k] != '|' && !IsSpace(s[k])
    ensures SplitFrom(OrSep, s, 0, p) == SplitFrom(OrSep, s, 0, n)
    decreases n - p
  {
    if p < n {
      assert SpaceRun(s, p) == 0;
      assert SepEnd(OrSep, s, p).None?;
      OrSplitFromHead(s, n, p + 1);
    }
  }

  /** "a || b" splits into the two tokens (constraint.go:49). */
  lemma {:induction false} SplitOrPair(a: string, b: string)
    requires NoSpace(a) && SepFree(OrSep, a) && SepFree(OrSep, b)
    requires |b| > 0 && !IsSpace(b[0])
    ensures Split(OrSep, a + " || " + b) == [a, b]
  {
    var s := a + " || " + b;
    var n := |a|;
    assert forall k :: 0 <= k < n ==> s[k] == a[k];
    assert forall k :: n + 4 <= k < |s| ==> s[k] == b[k - n - 4];
    OrSplitFromHead(s, n, 0);
    assert s[n] == ' ' && s[n + 1] == '|' && s[n + 2] == '|' && s[n + 3] == ' ' && s[n + 4] == b[0];
    OrSepAt(s, n);
    OrSplitFromTail(s, n + 4, n + 4);
    assert s[0..n] == a && s[n + 4..] == b;
  }

  /** " || " followed by a non-space is one OR separator. */
  lemma {:induction false} OrSepAt(s: string, n: nat)
    requires n + 4 < |s| && s[n] == ' ' && s[n + 1] == '|' && s[n + 2] == '|' && s[n + 3] == ' '
    requires !IsSpace(s[n + 4])
    ensures SepEnd(OrSep, s, n) == Some(n + 4)
  {
    assert SpaceRun(s, n + 1) == 0;
    assert SpaceRun(s, n) == 1;
    assert SpaceRun(s, n + 4) == 0;
    assert SpaceRun(s, n + 3) == 1;
  }

  /** Two tokens joined by "||" are parsed one by one and combined
      (constraint.go:34-104). */
  lemma {:induction false} TwoTokens(a: string, b: string)
    requires '@' !in a && '#' !in a && '@' !in b && '#' !in b
    requires NoSpace(a) && SepFree(OrSep, a) && SepFree(AndSep, a)
    requires SepFree(OrSep, b) && SepFree(AndSep, b) && |b| > 0 && !IsSpace(b[0])
    requires ParseConstraint(a).Ok? && ParseConstraint(b).Ok?
    ensures ConstraintOf(a + " || " + b) == Ok(Combine([ParseConstraint(a).value, ParseConstraint(b).value]))
  {
    var s := a + " || " + b;
    assert '@' !in s && '#' !in s;
    ModifierHasAt(s);
    DevRefHasHash(s);
    assert ConstraintText(s) == s;
    SplitOrPair(a, b);
    OrGroupOfToken(a);
    OrGroupOfToken(b);
    var pieces := [a, b];
    var ga, gb := ParseConstraint(a).value, ParseConstraint(b).value;
    assert OrGroups(pieces, 2) == Ok([]);
    assert OrGroups(pieces, 1) == Ok([gb]) by {
      assert [gb] + [] == [gb];
    }
    assert OrGroups(pieces, 0) == Ok([ga, gb]) by {
      assert [ga] + [gb] == [ga, gb];
    }
  }

  // ---------------------------------------------------------- OR groups

  /** Two or more groups that are not collapsed form a disjunction: a
      version matches when some group does; a single group is returned as
      it is (constraint.go:87-103). */
  lemma {:induction false} CombineMatches(groups: seq<Constraint>, v: Version, rk: Ranking)
    requires |groups| >= 1
    requires !(|groups| == 2 && Contiguous(groups[0], groups[1]))
    ensures Matches(Combine(groups), v, rk) <==> exists k :: 0 <= k < |groups| && Matches(groups[k], v, rk)
  {
    if |groups| == 1 {
      assert Combine(groups) == groups[0];
    } else {
      NodeMatches(false, groups, v, rk);
    }
  }

  /** The bound versions of two contiguous groups. */
  function LowOf(g: Constraint): Version
    requires g.Node? && |g.children| == 2 && g.children[0].Leaf?
  {
    g.children[0].version
  }

  function HighOf(g: Constraint): Version
    requires g.Node? && |g.children| == 2 && g.children[1].Leaf?
  {
    g.children[1].version
  }

  /** The collapse as written accepts every version: the disjunction of
      ">= L1" and "< H2" leaves nothing out once L1 is not above H2
      (constraint.go:100). */
  lemma {:induction false} CollapseAsWrittenAcceptsAll(g0: Constraint, g1: Constraint, v: Version, rk: Ranking)
    requires Contiguous(g0, g1)
    requires !KeyLess(KeyOf(HighOf(g1), rk), KeyOf(LowOf(g0), rk))
    ensures Combine([g0, g1]) == CollapseAsWritten(g0, g1)
    ensures Matches(CollapseAsWritten(g0, g1), v, rk)
  {
    var cs := [g0.children[0], g1.children[1]];
    NodeMatches(false, cs, v, rk);
    CompareOpMeaning(v, LowOf(g0), ">=", rk);
    CompareOpMeaning(v, HighOf(g1), "<", rk);
    KeyLessTotal(KeyOf(v, rk), KeyOf(LowOf(g0), rk));
    if KeyLess(KeyOf(v, rk), KeyOf(LowOf(g0), rk)) {
      KeyLessTotal(KeyOf(LowOf(g0), rk), KeyOf(HighOf(g1), rk));
      if KeyLess(KeyOf(LowOf(g0), rk), KeyOf(HighOf(g1), rk)) {
        KeyLessTransitive(KeyOf(v, rk), KeyOf(LowOf(g0), rk), KeyOf(HighOf(g1), rk));
      }
      assert Matches(cs[1], v, rk);
    } else {
      assert Matches(cs[0], v, rk);
    }
  }

  /** The corrected collapse is the union of the two ranges: when the
      first upper bound is the second lower bound and neither range is
      inverted, `[>= L1 < H2]` matches exactly the versions one of the
      groups matches (constraint.go:87-101). */
  lemma {:induction false} CollapseIsUnion(g0: Constraint, g1: Constraint, v: Version, rk: Ranking)
    requires Contiguous(g0, g1) && g0.conjunctive && g1.conjunctive
    requires KeyOf(HighOf(g0), rk) == KeyOf(LowOf(g1), rk)
    requires !KeyLess(KeyOf(HighOf(g0), rk), KeyOf(LowOf(g0), rk))
    requires !KeyLess(KeyOf(HighOf(g1), rk), KeyOf(LowOf(g1), rk))
    ensures Matches(Collapse(g0, g1), v, rk) <==> Matches(g0, v, rk) || Matches(g1, v, rk)
  {
    RangeShape(g0);
    RangeShape(g1);
    assert Collapse(g0, g1) == Range(LowOf(g0), HighOf(g1)) by {
      assert Collapse(g0, g1).children == [g0.children[0], g1.children[1]];
    }
    RangeUnion(LowOf(g0), HighOf(g0), LowOf(g1), HighOf(g1), v, rk);
  }

  /** A conjunctive node over a lower and an upper bound is a range. */
  lemma {:induction false} RangeShape(g: Constraint)
    requires g.Node? && g.conjunctive && |g.children| == 2
    requires g.children[0].Leaf? && g.children[0].op == ">="
    requires g.children[1].Leaf? && g.children[1].op == "<"
    ensures g == Range(LowOf(g), HighOf(g))
  {
    assert g.children == [Leaf(">=", LowOf(g)), Leaf("<", HighOf(g))];
  }

  /** Two adjacent ranges, neither inverted, join into one. */
  lemma {:induction false} RangeUnion(l0: Version, h0: Version, l1: Version, h1: Version, v: Version, rk: Ranking)
    requires KeyOf(h0, rk) == KeyOf(l1, rk)
    requires !KeyLess(KeyOf(h0, rk), KeyOf(l0, rk)) && !KeyLess(KeyOf(h1, rk), KeyOf(l1, rk))
    ensures Matches(Range(l0, h1), v, rk) <==> Matches(Range(l0, h0), v, rk) || Matches(Range(l1, h1), v, rk)
  {
    RangeMatches(l0, h0, v, rk);
    RangeMatches(l1, h1, v, rk);
    RangeMatches(l0, h1, v, rk);
    IntervalUnion(KeyOf(v, rk), KeyOf(l0, rk), KeyOf(h0, rk), KeyOf(l1, rk), KeyOf(h1, rk));
  }

  /** Adjacent half-open key intervals, neither inverted, join into one. */
  lemma {:induction false} IntervalUnion(x: Key, l0: Key, h0: Key, l1: Key, h1: Key)
    requires h0 == l1 && !KeyLess(h0, l0) && !KeyLess(h1, l1)
    ensures (!KeyLess(x, l0) && KeyLess(x, h1)) <==>
      (!KeyLess(x, l0) && KeyLess(x, h0)) || (!KeyLess(x, l1) && KeyLess(x, h1))
  {
    KeyLessTotal(x, h0);
    KeyLessTotal(h0, h1);
    KeyLessTotal(x, l0);
    if KeyLess(x, l0) && KeyLess(l0, h0) {
      KeyLessTransitive(x, l0, h0);
    }
    if KeyLess(x, h0) && KeyLess(h0, h1) {
      KeyLessTransitive(x, h0, h1);
    }
  }

  /** The sort-key order is total. */
  lemma {:induction false} KeyLessTotal(x: Key, y: Key)
    ensures KeyLess(x, y) || x == y || KeyLess(y, x)
  {
  }

  /** The two contiguous groups of "^2.5 || ^3.0" (constraint_test.go:238-241). */
  function CaretTwoFive(): Constraint
  {
    Range(PlainVersion(2, 5, 0, 0, "-dev"), PlainVersion(3, 0, 0, 0, "-dev"))
  }

  function CaretThree(): Constraint
  {
    Range(PlainVersion(3, 0, 0, 0, "-dev"), PlainVersion(4, 0, 0, 0, "-dev"))
  }

  /** The node constraint.go:100 builds for "^2.5 || ^3.0" is disjunctive,
      so it accepts 1.0.0, which neither group accepts; the corrected
      collapse refuses it. */
  lemma CollapseAsWrittenMatchesTooMuch()
    ensures Contiguous(CaretTwoFive(), CaretThree())
    ensures var v := PlainVersion(1, 0, 0, 0, "");
      Matches(Combine([CaretTwoFive(), CaretThree()]), v) &&
      !Matches(CaretTwoFive(), v) && !Matches(CaretThree(), v)
    ensures !Matches(Collapse(CaretTwoFive(), CaretThree()), PlainVersion(1, 0, 0, 0, ""))
  {
    var v := PlainVersion(1, 0, 0, 0, "");
    var g0, g1 := CaretTwoFive(), CaretThree();
    RangeMatches(PlainVersion(2, 5, 0, 0, "-dev"), PlainVersion(3, 0, 0, 0, "-dev"), v, AsWritten);
    RangeMatches(PlainVersion(3, 0, 0, 0, "-dev"), PlainVersion(4, 0, 0, 0, "-dev"), v, AsWritten);
    RangeMatches(PlainVersion(2, 5, 0, 0, "-dev"), PlainVersion(4, 0, 0, 0, "-dev"), v, AsWritten);
    CollapseAsWrittenAcceptsAll(g0, g1, v, AsWritten);
  }
}
