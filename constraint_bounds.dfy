/** The bounds the range builders of constraint.go compute for constraints
    written with plain decimal numbers: caret, tilde and x-range tokens, and
    the single-token constraints built from them. */
module ConstraintBounds {
  import opened Text
  import opened Grammar
  import opened GrammarFacts
  import opened Versions
  import opened Errors
  import opened Parser
  import opened ParserFacts
  import opened Comparison
  import opened ConstraintGrammar
  import opened Constraints
  import opened ConstraintFacts

  // ---------------------------------------------------------------- numbers

  /** The decimal texts of a list of numbers. */
  function Texts(ns: seq<nat>): (ds: seq<string>)
    ensures |ds| == |ns| && AllNumbers(ds)
    ensures forall k :: 0 <= k < |ns| ==> ds[k] == NatToString(ns[k])
  {
    if ns == [] then [] else [NatToString(ns[0])] + Texts(ns[1..])
  }

  /** Number `k` of a version written with the numbers `ns`: 0 when absent. */
  function Num(ns: seq<nat>, k: nat): nat
  {
    if k < |ns| then ns[k] else 0
  }

  /** Number `k` (0 to 3) of a bound that keeps the numbers before position
      `p` (1 to 4), adds `inc` to the number at `p` and zeroes the rest. */
  function Bump(ns: seq<nat>, p: nat, inc: nat, k: nat): nat
  {
    if k + 1 < p then Num(ns, k) else if k + 1 == p then Num(ns, k) + inc else 0
  }

  /** The version the numbers `ns` denote, with stability "dev" when `t` is
      "-dev". */
  function Written(ns: seq<nat>, t: string): Version
  {
    PlainVersion(Num(ns, 0), Num(ns, 1), Num(ns, 2), Num(ns, 3), t)
  }

  /** The "-dev" bound incremented at position `p`. */
  function Bound(ns: seq<nat>, p: nat): Version
  {
    PlainVersion(Bump(ns, p, 1, 0), Bump(ns, p, 1, 1), Bump(ns, p, 1, 2), Bump(ns, p, 1, 3), "-dev")
  }

  /** The match array of a token written with the numbers `ns`. */
  predicate GivenGroups(g: seq<string>, ns: seq<nat>)
  {
    |g| == 5 && forall k :: 1 <= k <= 4 ==> g[k] == if k - 1 < |ns| then NatToString(ns[k - 1]) else ""
  }

  lemma {:induction false} NatToStringZero(n: nat)
    ensures NatToString(n) == "0" <==> n == 0
  {
    if NatToString(n) == "0" {
      assert Value("0") == 0;
    }
    if n == 0 {
      assert NatToString(0) == [DigitChar(0)];
    }
  }

  lemma {:induction false} GroupsGiven(m: VersionMatch, ns: seq<nat>)
    requires |m.numbers| == |ns| <= 4
    requires forall k :: 0 <= k < |ns| ==> m.numbers[k] == NatToString(ns[k])
    ensures GivenGroups(Groups(m), ns)
  {
    var g := Groups(m);
    forall k | 1 <= k <= 4
      ensures g[k] == if k - 1 < |ns| then NatToString(ns[k - 1]) else ""
    {
      assert g[k] == NumberGroup(m.numbers, k - 1);
    }
  }

  /** Slot `i` of the expanded text is the decimal text of the bound's
      number. */
  lemma {:induction false} SlotOfGiven(g: seq<string>, ns: seq<nat>, p: nat, inc: nat, i: nat)
    requires GivenGroups(g, ns) && p <= |ns| && 1 <= i <= 4
    ensures Slot(g, p, inc, "0", i) == NatToString(Bump(ns, p, inc, i - 1))
  {
    if i > p {
      NatToStringZero(0);
    }
  }

  /** The expanded text of a bound parses to the version with the bumped
      numbers. */
  lemma {:induction false} ExpandedBound(g: seq<string>, ns: seq<nat>, p: nat, inc: nat, t: string)
    requires GivenGroups(g, ns) && p <= |ns| && PlainTail(t) && Bump(ns, p, inc, 0) < 100000
    ensures NewVersion(ExpandedText(g, p, inc, "0", t)) ==
      Ok(PlainVersion(Bump(ns, p, inc, 0), Bump(ns, p, inc, 1), Bump(ns, p, inc, 2), Bump(ns, p, inc, 3), t))
  {
    var b0, b1, b2, b3 := Bump(ns, p, inc, 0), Bump(ns, p, inc, 1), Bump(ns, p, inc, 2), Bump(ns, p, inc, 3);
    SlotOfGiven(g, ns, p, inc, 1);
    SlotOfGiven(g, ns, p, inc, 2);
    SlotOfGiven(g, ns, p, inc, 3);
    SlotOfGiven(g, ns, p, inc, 4);
    ExpandedTextOf(g, p, inc, t, NatToString(b0), NatToString(b1), NatToString(b2), NatToString(b3));
    NewVersionOfNumberText(b0, b1, b2, b3, t);
  }

  lemma {:induction false} ExpandedTextOf(g: seq<string>, p: nat, inc: nat, t: string, a: string, b: string, c: string, d: string)
    requires |g| == 5
    requires Slot(g, p, inc, "0", 1) == a && Slot(g, p, inc, "0", 2) == b
    requires Slot(g, p, inc, "0", 3) == c && Slot(g, p, inc, "0", 4) == d
    ensures ExpandedText(g, p, inc, "0", t) == a + "." + b + "." + c + "." + d + t
  {
  }

  /** Expanding at the last given group without increment writes the
      numbers back. */
  lemma {:induction false} ExpandedWritten(g: seq<string>, ns: seq<nat>, t: string)
    requires GivenGroups(g, ns) && 1 <= |ns| && PlainTail(t) && ns[0] < 100000
    ensures NewVersion(ExpandedText(g, |ns|, 0, "0", t)) == Ok(Written(ns, t))
  {
    ExpandedBound(g, ns, |ns|, 0, t);
  }

  /** The written numbers, with nothing or "-dev" after them, parse to the
      version they denote. */
  lemma {:induction false} NewVersionOfTexts(ns: seq<nat>, t: string)
    requires 1 <= |ns| <= 4 && ns[0] < 100000 && PlainTail(t)
    ensures NewVersion(DottedText(Texts(ns)) + t) == Ok(Written(ns, t))
  {
    var ds := Texts(ns);
    NatToStringLength(ns[0], 5);
    NewVersionOfDotted(ds, t);
  }

  /** The loose version grammar reads the written numbers back. */
  lemma {:induction false} LooseOfTexts(ns: seq<nat>)
    requires 1 <= |ns| <= 4
    ensures MatchLoose(DottedText(Texts(ns))) == Some(VersionMatch(Texts(ns), Tail("", "", "", "")))
  {
    var ds := Texts(ns);
    assert DottedText(ds) + "" == DottedText(ds);
    MatchVersionOfDotted(Loose, true, 0, ds, "");
  }

  /** The written text starts with the first digit of the major number. */
  lemma {:induction false} TextsStartWithDigit(ns: seq<nat>)
    requires 1 <= |ns| <= 4
    ensures var text := DottedText(Texts(ns)); |text| >= 1 && IsDigit(text[0])
  {
    var ds := Texts(ns);
    assert DottedText(ds)[0] == ds[0][0];
  }

  lemma {:induction false} LastGivenOf(g: seq<string>, ns: seq<nat>, top: nat)
    requires GivenGroups(g, ns) && 1 <= |ns| <= top <= 4
    ensures LastGiven(g, top) == |ns|
    decreases top
  {
    if top > |ns| {
      LastGivenOf(g, ns, top - 1);
    }
  }

  // ------------------------------------------------------------------ caret

  /** The position `caretRange` increments, on the numbers: the major when it
      is not zero or is alone, else the minor when it is not zero or is the
      last given, else the patch (constraint.go:416-422). */
  function CaretPos(ns: seq<nat>): nat
  {
    if Num(ns, 0) != 0 || |ns| < 2 then 1 else if Num(ns, 1) != 0 || |ns| < 3 then 2 else 3
  }

  lemma {:induction false} CaretPositionOf(g: seq<string>, ns: seq<nat>)
    requires GivenGroups(g, ns) && 1 <= |ns|
    ensures CaretPosition(g) == CaretPos(ns)
  {
    NatToStringZero(ns[0]);
    if |ns| >= 2 {
      NatToStringZero(ns[1]);
    }
  }

  /** "^" and plain numbers: from the written version as a "-dev" lower
      bound up to, excluding, the next version that changes the first
      non-zero number, e.g. "^1.2.3" is [1.2.3.0-dev, 2.0.0.0-dev) and
      "^0.3" is [0.3.0.0-dev, 0.4.0.0-dev) (constraint.go:411-442). */
  lemma {:induction false} CaretOfNumbers(ns: seq<nat>)
    requires 1 <= |ns| <= 4 && ns[0] < 99999
    ensures ParseConstraint("^" + DottedText(Texts(ns))) == Ok(Range(Written(ns, "-dev"), Bound(ns, CaretPos(ns))))
  {
    var text := DottedText(Texts(ns));
    var s := "^" + text;
    var m := VersionMatch(Texts(ns), Tail("", "", "", ""));
    LooseOfTexts(ns);
    CaretMatch(text, m);
    var g := Groups(m);
    assert CaretPosition(g) == CaretPos(ns) &&
      NewVersion(ExpandedText(g, CaretPos(ns), 1, "0", "-dev")) == Ok(Bound(ns, CaretPos(ns))) by {
      GroupsGiven(m, ns);
      CaretPositionOf(g, ns);
      ExpandedBound(g, ns, CaretPos(ns), 1, "-dev");
    }
    NewVersionOfTexts(ns, "-dev");
    CaretPlain(s, m, Written(ns, "-dev"), Bound(ns, CaretPos(ns)));
  }

  lemma {:induction false} CaretMatch(text: string, m: VersionMatch)
    requires MatchLoose(text) == Some(m)
    ensures MatchCaret("^" + text) == Some(m) && ("^" + text)[1..] == text
  {
    assert ("^" + text)[1..] == text;
  }

  /** `caretRange` on a token without a tag or state. */
  lemma {:induction false} CaretPlain(s: string, m: VersionMatch, low: Version, high: Version)
    requires MatchCaret(s) == Some(m) && m.tail == Tail("", "", "", "")
    requires NewVersion(s[1..] + "-dev") == Ok(low)
    requires var g := Groups(m); NewVersion(ExpandedText(g, CaretPosition(g), 1, "0", "-dev")) == Ok(high)
    ensures ParseConstraint(s) == Ok(Range(low, high))
  {
    assert ParseConstraint(s) == CaretRange(s) by {
      assert !IsWildcard(s) && MatchTilde(s).None?;
    }
  }

  // ------------------------------------------------------------------ tilde

  /** The position `parseTilde` increments: the one before the last given
      number, but never the major's left (constraint.go:478-481). */
  function TildePos(ns: seq<nat>): nat
  {
    if |ns| >= 2 then |ns| - 1 else 1
  }

  /** "~" and plain numbers: from the written version as a "-dev" lower
      bound up to, excluding, the next version that changes the number before
      the last given one, e.g. "~1.2.3" is [1.2.3.0-dev, 1.3.0.0-dev) and
      "~1" is [1.0.0.0-dev, 2.0.0.0-dev) (constraint.go:451-492). */
  lemma {:induction false} TildeOfNumbers(ns: seq<nat>)
    requires 1 <= |ns| <= 4 && ns[0] < 99999
    ensures ParseConstraint("~" + DottedText(Texts(ns))) == Ok(Range(Written(ns, "-dev"), Bound(ns, TildePos(ns))))
  {
    var text := DottedText(Texts(ns));
    var s := "~" + text;
    var m := VersionMatch(Texts(ns), Tail("", "", "", ""));
    TextsStartWithDigit(ns);
    LooseOfTexts(ns);
    TildeMatch(text, m);
    var g := Groups(m);
    assert LastGiven(g, 4) == |ns| &&
      NewVersion(ExpandedText(g, |ns|, 0, "0", "-dev")) == Ok(Written(ns, "-dev")) &&
      NewVersion(ExpandedText(g, TildePos(ns), 1, "0", "-dev")) == Ok(Bound(ns, TildePos(ns))) by {
      GroupsGiven(m, ns);
      LastGivenOf(g, ns, 4);
      ExpandedWritten(g, ns, "-dev");
      ExpandedBound(g, ns, TildePos(ns), 1, "-dev");
    }
    TildePlain(s, m, Written(ns, "-dev"), Bound(ns, TildePos(ns)));
  }

  lemma {:induction false} TildeMatch(text: string, m: VersionMatch)
    requires MatchLoose(text) == Some(m) && |text| >= 1 && IsDigit(text[0])
    ensures MatchTilde("~" + text) == Some(m) && ("~" + text)[..2] != "~>"
  {
    var s := "~" + text;
    assert s[1..] == text && s[1] == text[0];
    assert s[..2][1] == s[1];
  }

  /** `parseTilde` on a token without a tag or state. */
  lemma {:induction false} TildePlain(s: string, m: VersionMatch, low: Version, high: Version)
    requires MatchTilde(s) == Some(m) && s[..2] != "~>" && m.tail == Tail("", "", "", "")
    requires var g := Groups(m); var p := LastGiven(g, 4);
      NewVersion(ExpandedText(g, p, 0, "0", "-dev")) == Ok(low) &&
      NewVersion(ExpandedText(g, if p >= 2 then p - 1 else 1, 1, "0", "-dev")) == Ok(high)
    ensures ParseConstraint(s) == Ok(Range(low, high))
  {
    TildeDispatch(s);
    var g := Groups(m);
    assert ParseTilde(s) == TildeBounds(g, LastGiven(g, 4), "-dev") by {
      assert MatchTilde(s).value == m;
    }
    TildeBoundsOf(g, LastGiven(g, 4), low, high);
  }

  lemma {:induction false} TildeBoundsOf(g: seq<string>, p: nat, low: Version, high: Version)
    requires |g| == 5
    requires NewVersion(ExpandedText(g, p, 0, "0", "-dev")) == Ok(low)
    requires NewVersion(ExpandedText(g, if p >= 2 then p - 1 else 1, 1, "0", "-dev")) == Ok(high)
    ensures TildeBounds(g, p, "-dev") == Ok(Range(low, high))
  {
  }

  /** `parseConstraint` hands a tilde token to `parseTilde`. */
  lemma {:induction false} TildeDispatch(s: string)
    requires MatchTilde(s).Some?
    ensures ParseConstraint(s) == ParseTilde(s)
  {
    assert !IsWildcard(s) by {
      assert s[0] == '~';
    }
  }

  /** "~>" is refused with the message that points at "~"
      (constraint.go:455-456). */
  lemma {:induction false} TildeArrowRefused(ns: seq<nat>)
    requires 1 <= |ns| <= 4
    ensures var s := "~>" + DottedText(Texts(ns));
      ParseConstraint(s) == Err(InvalidOperator(TildeMessage(s)))
  {
    var text := DottedText(Texts(ns));
    var s := "~>" + text;
    LooseOfTexts(ns);
    TildeArrowMatch(text, VersionMatch(Texts(ns), Tail("", "", "", "")));
    TildeArrow(s);
  }

  lemma {:induction false} TildeArrowMatch(text: string, m: VersionMatch)
    requires MatchLoose(text) == Some(m)
    ensures MatchTilde("~>" + text) == Some(m) && ("~>" + text)[..2] == "~>"
  {
    var s := "~>" + text;
    assert s[2..] == text && s[1] == '>';
  }

  lemma {:induction false} TildeArrow(s: string)
    requires MatchTilde(s).Some? && s[..2] == "~>"
    ensures ParseConstraint(s) == Err(InvalidOperator(TildeMessage(s)))
  {
    TildeDispatch(s);
  }

  // ---------------------------------------------------------------- x-range

  /** The pieces of `DottedText(ds) + w` for a wildcard tail `w`. */
  lemma {:induction false} WildPieces(ds: seq<string>, w: string)
    requires 1 <= |ds| && AllNumbers(ds) && |w| >= 2 && WildTail(w)
    ensures var s := DottedText(ds) + w; var n := |ds[0]|; var e := n + |DotText(ds[1..])|;
      e + |w| == |s| && s[..n] == ds[0] && s[n..e] == DotText(ds[1..]) && s[e..] == w &&
      n < |s| && !IsDigit(s[n]) && GroupEnd(s, e) && IsDigit(s[0])
  {
    var s := DottedText(ds) + w;
    var d := ds[0];
    var rest := DotText(ds[1..]);
    assert s == d + rest + w;
    var n := |d|;
    var e := n + |rest|;
    assert s[..n] == d;
    assert s[n..e] == rest;
    assert s[e..] == w;
    assert s[0] == d[0];
    if rest != [] {
      assert s[n] == rest[0];
    } else {
      assert s[n] == w[0];
    }
    assert s[e] == w[0] && s[e + 1] == w[1];
  }

  /** xRangeRegex reads the written numbers back in front of a wildcard
      tail such as ".x" or ".*.*". */
  lemma {:induction false} XRangeMatchOf(ns: seq<nat>, w: string)
    requires 1 <= |ns| <= 3 && |w| >= 2 && WildTail(w)
    ensures var s := DottedText(Texts(ns)) + w;
      |s| >= 1 && IsDigit(s[0]) && MatchXRange(s) == Some(Texts(ns))
  {
    var ds := Texts(ns);
    WildPieces(ds, w);
    XRangeMatchOfPieces(DottedText(ds) + w, ds, w, |ds[0]|, |ds[0]| + |DotText(ds[1..])|);
  }

  /** `s` is an optional 'v', the numbers `ds` joined by dots, then a
      wildcard tail of at least one ".x". */
  predicate XRangeText(s: string, ds: seq<string>)
    requires |ds| >= 1
  {
    var v := if |s| > 0 && s[0] == 'v' then 1 else 0;
    var t := DottedText(ds);
    v + |t| + 2 <= |s| && s[v..v + |t|] == t && WildTail(s[v + |t|..])
  }

  /** An x-range match is the text itself: the numbers it carries, joined by
      dots, are what stands between the optional 'v' and the wildcard tail
      (constraint.go:25). */
  lemma {:induction false} XRangeMatchText(s: string)
    ensures MatchXRange(s).Some? ==> XRangeText(s, MatchXRange(s).value)
  {
    if MatchXRange(s).Some? {
      var v := if |s| > 0 && s[0] == 'v' then 1 else 0;
      var n := DigitRun(s, v);
      var g := DotGroups(s, v + n, 2);
      assert n > 0 && |s[g.1..]| >= 2 && WildTail(s[g.1..]);
      DotGroupsText(s, v + n, 2);
      XRangeUnfold(s, v, n, g);
      XRangeTextPieces(s, v, s[v..v + n], g.0, g.1);
    }
  }

  lemma {:induction false} XRangeTextPieces(s: string, v: nat, x: string, rest: seq<string>, e: nat)
    requires v == (if |s| > 0 && s[0] == 'v' then 1 else 0)
    requires v + |x| <= e && e + 2 <= |s|
    requires s[v..v + |x|] == x && s[v + |x|..e] == DotText(rest)
    requires WildTail(s[e..])
    ensures XRangeText(s, [x] + rest)
  {
    DottedOfHead([x] + rest, x, rest);
    SliceJoin(s, v, v + |x|, e);
  }

  lemma {:induction false} XRangeUnfold(s: string, v: nat, n: nat, g: (seq<string>, nat))
    requires v == (if |s| > 0 && s[0] == 'v' then 1 else 0)
    requires 0 < n && v + n <= |s| && n == DigitRun(s, v) && g == DotGroups(s, v + n, 2)
    requires |s[g.1..]| >= 2 && WildTail(s[g.1..])
    ensures MatchXRange(s) == Some([s[v..v + n]] + g.0)
  {
  }

  lemma {:induction false} DottedOfHead(ds: seq<string>, x: string, rest: seq<string>)
    requires ds == [x] + rest
    ensures DottedText(ds) == x + DotText(rest)
  {
    assert ds[1..] == rest;
  }

  lemma {:induction false} SliceJoin(s: string, a: nat, b: nat, c: nat)
    requires a <= b <= c <= |s|
    ensures s[a..c] == s[a..b] + s[b..c]
  {
  }

  lemma {:induction false} XRangeMatchOfPieces(s: string, ds: seq<string>, w: string, n: nat, e: nat)
    requires 1 <= |ds| <= 3 && AllNumbers(ds) && |w| >= 2 && WildTail(w)
    requires n == |ds[0]| && e == n + |DotText(ds[1..])| && e + |w| == |s|
    requires s[..n] == ds[0] && s[n..e] == DotText(ds[1..]) && s[e..] == w
    requires n < |s| && !IsDigit(s[n]) && GroupEnd(s, e) && IsDigit(s[0])
    ensures MatchXRange(s) == Some(ds)
  {
    assert s[0..n] == ds[0];
    assert DigitRun(s, 0) == n by {
      DigitRunExact(s, 0, n);
    }
    assert DotGroups(s, n, 2) == (ds[1..], e) by {
      AllNumbersTail(ds);
      DotGroupsExact(s, n, ds[1..], 2);
    }
    assert ds == [s[0..n]] + ds[1..];
    XRangeStep(s, n, ds[1..], e, ds);
  }

  lemma {:induction false} XRangeStep(s: string, n: nat, numbers: seq<string>, e: nat, all: seq<string>)
    requires 0 < n <= |s| && IsDigit(s[0]) && DigitRun(s, 0) == n
    requires DotGroups(s, n, 2) == (numbers, e)
    requires |s[e..]| >= 2 && WildTail(s[e..])
    requires all == [s[0..n]] + numbers
    ensures MatchXRange(s) == Some(all)
  {
  }

  /** Four numbers print as "0.0.0.0" exactly when all are zero. */
  lemma {:induction false} NumberTextZero(a: nat, b: nat, c: nat, d: nat)
    ensures NumberText(a, b, c, d) == "0.0.0.0" <==> a == 0 && b == 0 && c == 0 && d == 0
  {
    NatToStringZero(a);
    NatToStringZero(b);
    NatToStringZero(c);
    NatToStringZero(d);
    var x := NumberText(a, b, c, d);
    if x == "0.0.0.0" {
      var sa, sb, sc, sd := NatToString(a), NatToString(b), NatToString(c), NatToString(d);
      assert |sa| == 1 && |sb| == 1 && |sc| == 1 && |sd| == 1;
      assert x[0] == sa[0] && x[2] == sb[0] && x[4] == sc[0] && x[6] == sd[0];
      assert sa == "0" && sb == "0" && sc == "0" && sd == "0";
    }
  }

  /** `xRange` on a token whose tail is wildcards. */
  lemma {:induction false} XRangeOf(s: string, ds: seq<string>, low: Version, high: Version)
    requires |s| >= 1 && IsDigit(s[0]) && MatchXRange(s) == Some(ds)
    requires var g := XGroups(ds); var p := LastGiven(g, 3);
      NewVersion(ExpandedText(g, p, 0, "0", "-dev")) == Ok(low) &&
      NewVersion(ExpandedText(g, p, 1, "0", "-dev")) == Ok(high)
    ensures ParseConstraint(s) == if ToString(low) == "0.0.0.0-dev" then Ok(Leaf("<", high)) else Ok(Range(low, high))
  {
    XRangeDispatch(s);
  }

  /** A text starting with a digit that the x-range grammar matches goes to `xRange`. */
  lemma {:induction false} XRangeDispatch(s: string)
    requires |s| >= 1 && IsDigit(s[0]) && MatchXRange(s).Some?
    ensures ParseConstraint(s) == XRange(s)
  {
    assert !IsWildcard(s) && MatchTilde(s).None? && MatchCaret(s).None?;
  }

  /** Plain numbers followed by wildcards: from the written version as a
      "-dev" bound up to, excluding, the next version at the last given
      number, e.g. "1.2.x" is [1.2.0.0-dev, 1.3.0.0-dev); when every
      number is zero the lower bound is dropped, e.g. "0.x" is
      "< 1.0.0.0-dev" (constraint.go:374-402). */
  lemma {:induction false} XRangeOfNumbers(ns: seq<nat>, w: string)
    requires 1 <= |ns| <= 3 && ns[0] < 99999 && |w| >= 2 && WildTail(w)
    ensures var s := DottedText(Texts(ns)) + w;
      ParseConstraint(s) ==
        if Num(ns, 0) == 0 && Num(ns, 1) == 0 && Num(ns, 2) == 0 then Ok(Leaf("<", Bound(ns, |ns|)))
        else Ok(Range(Written(ns, "-dev"), Bound(ns, |ns|)))
  {
    var ds := Texts(ns);
    var s := DottedText(ds) + w;
    XRangeMatchOf(ns, w);
    var g := XGroups(ds);
    assert LastGiven(g, 3) == |ns| &&
      NewVersion(ExpandedText(g, |ns|, 0, "0", "-dev")) == Ok(Written(ns, "-dev")) &&
      NewVersion(ExpandedText(g, |ns|, 1, "0", "-dev")) == Ok(Bound(ns, |ns|)) by {
      assert g == Groups(VersionMatch(ds, Tail("", "", "", "")));
      GroupsGiven(VersionMatch(ds, Tail("", "", "", "")), ns);
      LastGivenOf(g, ns, 3);
      ExpandedWritten(g, ns, "-dev");
      ExpandedBound(g, ns, |ns|, 1, "-dev");
    }
    WrittenZeroText(ns);
    XRangeOf(s, ds, Written(ns, "-dev"), Bound(ns, |ns|));
  }

  /** A written "-dev" version prints as "0.0.0.0-dev" exactly when its
      numbers are zero. */
  lemma {:induction false} WrittenZeroText(ns: seq<nat>)
    requires 1 <= |ns| <= 3 && ns[0] < 99999
    ensures ToString(Written(ns, "-dev")) == "0.0.0.0-dev" <==> Num(ns, 0) == 0 && Num(ns, 1) == 0 && Num(ns, 2) == 0
  {
    var low := Written(ns, "-dev");
    PlainVersionText(Num(ns, 0), Num(ns, 1), Num(ns, 2), Num(ns, 3), "-dev");
    NumberTextZero(Num(ns, 0), Num(ns, 1), Num(ns, 2), Num(ns, 3));
    var x := NumberText(Num(ns, 0), Num(ns, 1), Num(ns, 2), Num(ns, 3));
    assert ToString(low) == x + "-dev";
    if x + "-dev" == "0.0.0.0-dev" {
      assert x == (x + "-dev")[..|x|];
    }
  }

  // ------------------------------------------------------- simple comparison

  /** Only digits and dots. */
  predicate NumberChars(s: string)
  {
    forall k :: 0 <= k < |s| ==> IsDigit(s[k]) || s[k] == '.'
  }

  lemma {:induction false} DotTextChars(ds: seq<string>)
    requires AllNumbers(ds)
    ensures NumberChars(DotText(ds))
    decreases ds
  {
    if ds != [] {
      AllNumbersTail(ds);
      DotTextChars(ds[1..]);
      var x := DotText(ds);
      assert x == "." + ds[0] + DotText(ds[1..]);
      forall k | 0 <= k < |x|
        ensures IsDigit(x[k]) || x[k] == '.'
      {
        if 1 <= k < 1 + |ds[0]| {
          assert x[k] == ds[0][k - 1];
        } else if k > |ds[0]| {
          assert x[k] == DotText(ds[1..])[k - 1 - |ds[0]|];
        }
      }
    }
  }

  lemma {:induction false} TextsChars(ns: seq<nat>)
    requires 1 <= |ns|
    ensures NumberChars(DottedText(Texts(ns)))
  {
    DottedChars(Texts(ns));
  }

  lemma {:induction false} DottedChars(ds: seq<string>)
    requires 1 <= |ds| && AllNumbers(ds)
    ensures NumberChars(DottedText(ds))
  {
    AllNumbersTail(ds);
    DotTextChars(ds[1..]);
    var x := DottedText(ds);
    forall k | 0 <= k < |x|
      ensures IsDigit(x[k]) || x[k] == '.'
    {
      if k < |ds[0]| {
        assert x[k] == ds[0][k];
      } else {
        assert x[k] == DotText(ds[1..])[k - |ds[0]|];
      }
    }
  }

  /** No stability tag occurs in a text of digits and dots: every tag starts
      with a letter. */
  lemma {:induction false} NoTagInNumbers(s: string)
    requires NumberChars(s)
    ensures FindTag(s).None?
  {
    forall q, k | 0 <= q <= |s| && 0 <= k < |Tags|
      ensures !PrefixCIAt(s, q, Tags[k])
    {
      TagStartsWithLetter(k);
      NoTagAt(s, q, Tags[k]);
    }
  }

  lemma {:induction false} NoTagAt(s: string, q: nat, tag: string)
    requires NumberChars(s) && |tag| >= 1 && 'a' <= tag[0] <= 'z'
    ensures !PrefixCIAt(s, q, tag)
  {
    if q + |tag| <= |s| {
      assert LowerStr(s[q..q + |tag|])[0] == Lower(s[q]);
    }
  }

  /** xRangeRegex needs a wildcard, so it does not match digits and dots,
      nor a text that starts with an operator. */
  lemma {:induction false} NoXRangeInNumbers(s: string)
    requires NumberChars(s) || (|s| >= 1 && !IsDigit(s[0]) && s[0] != 'v')
    ensures MatchXRange(s).None?
  {
    var v := if |s| > 0 && s[0] == 'v' then 1 else 0;
    var n := DigitRun(s, v);
    if n > 0 {
      var g := DotGroups(s, v + n, 2);
      var t := s[g.1..];
      if |t| >= 2 {
        assert t[1] == s[g.1 + 1];
      }
    }
  }

  /** The operators of simpleComparisonRegex. */
  const Operators: set<string> := {"", "<>", "!=", ">=", ">", "<=", "<", "==", "="}

  lemma {:induction false} LeadingOperatorOf(op: string, text: string)
    requires op in Operators && |text| >= 1 && IsDigit(text[0])
    ensures LeadingOperator(op + text) == op
  {
    var s := op + text;
    assert s[|op|] == text[0];
    if |op| >= 1 {
      assert s[0] == op[0];
    }
    if |op| == 2 {
      assert s[..2] == op;
    }
  }

  /** A simple comparison with plain numbers compares against the written
      version; "<" and ">=" compare against its "-dev" form, so that
      "<1.2" excludes 1.2.0's pre-releases and ">=1.2" includes them, and
      a missing operator means "==" (constraint.go:267-306). */
  lemma {:induction false} BasicOfNumbers(op: string, ns: seq<nat>)
    requires op in Operators && 1 <= |ns| <= 4 && ns[0] < 100000
    ensures ParseConstraint(op + DottedText(Texts(ns))) ==
      Ok(Leaf(NormalizeOperator(op), Written(ns, if op == "<" || op == ">=" then "-dev" else "")))
  {
    var text := DottedText(Texts(ns));
    var t := if op == "<" || op == ">=" then "-dev" else "";
    TextsStartWithDigit(ns);
    TextsChars(ns);
    OperatorTextChars(op, text);
    BasicVersionTextOf(op, text);
    NoXRangeInNumbers(op + text);
    NewVersionOfTexts(ns, t);
    BasicPlain(op + text, op, text + t, Written(ns, t));
  }

  /** The characters of an operator followed by digits and dots. */
  lemma {:induction false} OperatorTextChars(op: string, text: string)
    requires op in Operators && |text| >= 1 && IsDigit(text[0]) && NumberChars(text)
    ensures var s := op + text;
      |s| >= 1 && s[0] != '~' && s[0] != '^' && s[0] != 'v' && !IsWild(s[0]) &&
      NoSpace(s) && '@' !in s &&
      (NumberChars(s) || !IsDigit(s[0]))
  {
    OperatorsAreSigns(op);
    SignsThenNumberChars(op, text);
  }

  /** The characters operators are written with. */
  predicate Signs(op: string)
  {
    forall k :: 0 <= k < |op| ==> op[k] in {'<', '>', '=', '!'}
  }

  lemma {:induction false} OperatorsAreSigns(op: string)
    requires op in Operators
    ensures Signs(op)
  {
  }

  lemma {:induction false} SignsThenNumberChars(op: string, text: string)
    requires Signs(op) && |text| >= 1 && IsDigit(text[0]) && NumberChars(text)
    ensures var s := op + text;
      |s| >= 1 && s[0] != '~' && s[0] != '^' && s[0] != 'v' && !IsWild(s[0]) &&
      NoSpace(s) && '@' !in s &&
      (NumberChars(s) || !IsDigit(s[0]))
  {
    var s := op + text;
    forall k | 0 <= k < |s|
      ensures s[k] == if k < |op| then op[k] else text[k - |op|]
    {
    }
    if op == [] {
      assert s == text;
    }
  }

  /** The version text `basicRange` reads from an operator and plain
      numbers. */
  lemma {:induction false} BasicVersionTextOf(op: string, text: string)
    requires op in Operators && |text| >= 1 && IsDigit(text[0]) && NumberChars(text)
    requires '@' !in op + text
    ensures BasicVersionText(op + text) == (op, text + if op == "<" || op == ">=" then "-dev" else "")
  {
    var s := op + text;
    assert s[|op|..] == text;
    ModifierHasAt(s);
    LeadingOperatorOf(op, text);
    assert SpaceRun(s, |op|) == 0 by {
      assert s[|op|] == text[0];
    }
    assert '\n' !in text by {
      assert forall k :: 0 <= k < |text| ==> text[k] != '\n';
    }
    assert MatchComparison(s) == (op, text);
    assert MatchModifier(s).None?;
    assert !(|text| >= 4 && text[..4] == "dev-") by {
      if |text| >= 4 {
        assert text[..4][0] == text[0];
      }
    }
    NoTagInNumbers(text);
    assert text + "" == text;
  }

  /** `parseConstraint` falls through to `basicRange` on a token that no
      range grammar matches. */
  lemma {:induction false} BasicPlain(s: string, op: string, version: string, v: Version)
    requires |s| >= 1 && s[0] != '~' && s[0] != '^' && s[0] != 'v' && !IsWild(s[0])
    requires NoSpace(s) && MatchXRange(s).None?
    requires BasicVersionText(s) == (op, version) && NewVersion(version) == Ok(v)
    ensures ParseConstraint(s) == Ok(Leaf(NormalizeOperator(op), v))
  {
    NoHyphen(s);
    assert ParseConstraint(s) == BasicRange(s) by {
      assert !IsWildcard(s) && MatchTilde(s).None? && MatchCaret(s).None?;
    }
  }

  /** hyphenRegex needs a space. */
  lemma {:induction false} NoHyphen(s: string)
    requires NoSpace(s)
    ensures MatchHyphen(s).None?
  {
    assert FirstSpace(s, 0) == |s|;
  }

  // ------------------------------------------------- releases and the bounds

  /** The numbers major, minor, patch of `v` are lexicographically below
      those of `w`. */
  predicate NumbersBelow(v: Version, w: Version)
  {
    v.major < w.major || (v.major == w.major && (v.minor < w.minor ||
    (v.minor == w.minor && v.patch < w.patch)))
  }

  /** A release (no stability suffix) against a "-dev" bound: only the
      numbers decide. As written, equal numbers put the release below the
      bound; with the corrected rank, above it. */
  lemma {:induction false} ReleaseAgainstDev(v: Version, w: Version, rk: Ranking)
    requires v.stability == "" && w.stability == "dev"
    ensures rk.AsWritten? ==> (KeyLess(KeyOf(v, rk), KeyOf(w, rk)) <==> !NumbersBelow(w, v))
    ensures rk.Corrected? ==> (KeyLess(KeyOf(v, rk), KeyOf(w, rk)) <==> NumbersBelow(v, w))
  {
    StabilityOrder();
  }

  /** A release lies in a range with "-dev" bounds, as written, exactly when
      its numbers are above the lower bound's and at most the upper
      bound's; with the corrected rank, when they are at or above the lower
      bound's and below the upper bound's. */
  lemma {:induction false} ReleaseInDevRange(low: Version, high: Version, v: Version, rk: Ranking)
    requires v.stability == "" && low.stability == "dev" && high.stability == "dev"
    ensures rk.AsWritten? ==>
      (Matches(Range(low, high), v, rk) <==> NumbersBelow(low, v) && !NumbersBelow(high, v))
    ensures rk.Corrected? ==>
      (Matches(Range(low, high), v, rk) <==> !NumbersBelow(v, low) && NumbersBelow(v, high))
  {
    RangeMatches(low, high, v, rk);
    ReleaseAgainstDev(v, low, rk);
    ReleaseAgainstDev(v, high, rk);
  }

  /** The releases "^" accepts. As written: those whose numbers are above
      the written ones, up to and including the next change of the first
      non-zero number, so "^1.2.3" refuses 1.2.3 and takes 2.0.0. With the
      corrected rank: from the written numbers up to, excluding, that
      change, so "^1.2.3" takes 1.8.1 and refuses 2.0.0
      (constraint_test.go:404, 412). */
  lemma {:induction false} CaretReleases(ns: seq<nat>, v: Version)
    requires 1 <= |ns| <= 4 && ns[0] < 99999 && v.stability == ""
    ensures var r := ParseConstraint("^" + DottedText(Texts(ns)));
      r.Ok? && (Matches(r.value, v) <==>
        NumbersBelow(Written(ns, "-dev"), v) && !NumbersBelow(Bound(ns, CaretPos(ns)), v))
    ensures var r := ParseConstraint("^" + DottedText(Texts(ns)));
      r.Ok? && (Matches(r.value, v, Corrected) <==>
        !NumbersBelow(v, Written(ns, "-dev")) && NumbersBelow(v, Bound(ns, CaretPos(ns))))
  {
    CaretOfNumbers(ns);
    ReleaseInDevRange(Written(ns, "-dev"), Bound(ns, CaretPos(ns)), v, AsWritten);
    ReleaseInDevRange(Written(ns, "-dev"), Bound(ns, CaretPos(ns)), v, Corrected);
  }

  /** The releases "~" accepts. As written: numbers above the written ones
      up to and including the next change of the number before the last
      given one, so "~2.4" takes 3.0.0. With the corrected rank: from the
      written numbers up to, excluding, that change, so "~2.4" refuses
      2.3.9 and 3.0.0 (constraint_test.go:445-446). */
  lemma {:induction false} TildeReleases(ns: seq<nat>, v: Version)
    requires 1 <= |ns| <= 4 && ns[0] < 99999 && v.stability == ""
    ensures var r := ParseConstraint("~" + DottedText(Texts(ns)));
      r.Ok? && (Matches(r.value, v) <==>
        NumbersBelow(Written(ns, "-dev"), v) && !NumbersBelow(Bound(ns, TildePos(ns)), v))
    ensures var r := ParseConstraint("~" + DottedText(Texts(ns)));
      r.Ok? && (Matches(r.value, v, Corrected) <==>
        !NumbersBelow(v, Written(ns, "-dev")) && NumbersBelow(v, Bound(ns, TildePos(ns))))
  {
    TildeOfNumbers(ns);
    ReleaseInDevRange(Written(ns, "-dev"), Bound(ns, TildePos(ns)), v, AsWritten);
    ReleaseInDevRange(Written(ns, "-dev"), Bound(ns, TildePos(ns)), v, Corrected);
  }

  /** "<" and ">=" with plain numbers. As written, "<" takes the release it
      names and every release below it, and ">=" only the releases above
      it; with the corrected rank, "<" refuses the named release and ">="
      takes it (constraint_test.go:448). */
  lemma {:induction false} LessAndAtLeastReleases(ns: seq<nat>, v: Version)
    requires 1 <= |ns| <= 4 && ns[0] < 100000 && v.stability == ""
    ensures var r := ParseConstraint("<" + DottedText(Texts(ns)));
      r.Ok? && (Matches(r.value, v) <==> !NumbersBelow(Written(ns, "-dev"), v)) &&
      (Matches(r.value, v, Corrected) <==> NumbersBelow(v, Written(ns, "-dev")))
    ensures var r := ParseConstraint(">=" + DottedText(Texts(ns)));
      r.Ok? && (Matches(r.value, v) <==> NumbersBelow(Written(ns, "-dev"), v)) &&
      (Matches(r.value, v, Corrected) <==> !NumbersBelow(v, Written(ns, "-dev")))
  {
    BasicOfNumbers("<", ns);
    BasicOfNumbers(">=", ns);
    CompareOpMeaning(v, Written(ns, "-dev"), "<", AsWritten);
    CompareOpMeaning(v, Written(ns, "-dev"), ">=", AsWritten);
    CompareOpMeaning(v, Written(ns, "-dev"), "<", Corrected);
    CompareOpMeaning(v, Written(ns, "-dev"), ">=", Corrected);
    ReleaseAgainstDev(v, Written(ns, "-dev"), AsWritten);
    ReleaseAgainstDev(v, Written(ns, "-dev"), Corrected);
  }

  /** The texts "~2.4", "<1" and ">=1.0.0" of the examples below. */
  lemma ExampleTexts()
    ensures "~" + DottedText(Texts([2, 4])) == "~2.4"
    ensures "<" + DottedText(Texts([1])) == "<1"
    ensures ">=" + DottedText(Texts([1, 0, 0])) == ">=1.0.0"
  {
    assert NatToString(0) == "0" && NatToString(1) == "1";
    assert NatToString(2) == "2" && NatToString(4) == "4";
    assert Texts([2, 4]) == ["2", "4"];
    assert ["2", "4"][1..] == ["4"];
    assert Texts([1]) == ["1"];
    assert Texts([1, 0, 0]) == ["1", "0", "0"];
    assert ["1", "0", "0"][1..] == ["0", "0"];
    assert ["0", "0"][1..] == ["0"];
  }

  /** "<1", ">=1.0.0" and "~2.4" are single tokens, so `NewConstraint`
      gives what `parseConstraint` gives for them. */
  lemma ExampleConstraints()
    ensures ConstraintOf("<1") == ParseConstraint("<1")
    ensures ConstraintOf(">=1.0.0") == ParseConstraint(">=1.0.0")
    ensures ConstraintOf("~2.4") == ParseConstraint("~2.4")
  {
    ExampleTexts();
    WholeToken("<", [1], "<1");
    WholeToken(">=", [1, 0, 0], ">=1.0.0");
    WholeToken("~", [2, 4], "~2.4");
  }

  lemma {:induction false} WholeToken(op: string, ns: seq<nat>, s: string)
    requires op in {"^", "~", ""} + Operators && 1 <= |ns| && s == op + DottedText(Texts(ns))
    ensures ConstraintOf(s) == ParseConstraint(s)
  {
    WrittenTokenChars(op, ns, "");
    assert s + "" == s;
    TokenIsWholeConstraint(s);
  }

  /** The code as written, end to end from `NewConstraint`: "<1" takes the
      release 1.0.0 and ">=1.0.0" refuses it, and "~2.4" takes 3.0.0, where
      constraint_test.go:445 and 448 expect the opposite. */
  lemma NamedReleaseAsWritten()
    ensures var v := PlainVersion(1, 0, 0, 0, "");
      ConstraintOf("<1").Ok? && Matches(ConstraintOf("<1").value, v) &&
      ConstraintOf(">=1.0.0").Ok? && !Matches(ConstraintOf(">=1.0.0").value, v)
    ensures ConstraintOf("~2.4").Ok? && Matches(ConstraintOf("~2.4").value, PlainVersion(3, 0, 0, 0, ""))
  {
    ExampleTexts();
    ExampleConstraints();
    LessAndAtLeastReleases([1], PlainVersion(1, 0, 0, 0, ""));
    LessAndAtLeastReleases([1, 0, 0], PlainVersion(1, 0, 0, 0, ""));
    TildeReleases([2, 4], PlainVersion(3, 0, 0, 0, ""));
  }

  /** With the corrected rank the same constraints behave as
      constraint_test.go:445 and 448 expect: "<1" refuses 1.0.0, ">=1.0.0"
      takes it, and "~2.4" refuses 3.0.0. */
  lemma NamedReleaseCorrected()
    ensures var v := PlainVersion(1, 0, 0, 0, "");
      ConstraintOf("<1").Ok? && !Matches(ConstraintOf("<1").value, v, Corrected) &&
      ConstraintOf(">=1.0.0").Ok? && Matches(ConstraintOf(">=1.0.0").value, v, Corrected)
    ensures ConstraintOf("~2.4").Ok? && !Matches(ConstraintOf("~2.4").value, PlainVersion(3, 0, 0, 0, ""), Corrected)
  {
    ExampleTexts();
    ExampleConstraints();
    LessAndAtLeastReleases([1], PlainVersion(1, 0, 0, 0, ""));
    LessAndAtLeastReleases([1, 0, 0], PlainVersion(1, 0, 0, 0, ""));
    TildeReleases([2, 4], PlainVersion(3, 0, 0, 0, ""));
  }

  // ------------------------------------------------ whole constraint strings

  /** Characters of a single token without separators, '@' or '#'. */
  predicate TokenChar(c: char)
  {
    IsDigit(c) || c in {'.', '^', '~', '<', '>', '=', '!', 'x', 'X', '*'}
  }

  predicate TokenChars(s: string)
  {
    forall k :: 0 <= k < |s| ==> TokenChar(s[k])
  }

  lemma {:induction false} TokenCharsConcat(a: string, b: string)
    requires TokenChars(a) && TokenChars(b)
    ensures TokenChars(a + b)
  {
    forall k | 0 <= k < |a + b|
      ensures TokenChar((a + b)[k])
    {
      if k >= |a| {
        assert (a + b)[k] == b[k - |a|];
      }
    }
  }

  lemma {:induction false} WildTailChars(w: string)
    requires WildTail(w)
    ensures TokenChars(w)
    decreases |w|
  {
    if w != [] {
      WildTailChars(w[2..]);
      assert w == w[..2] + w[2..];
      TokenCharsConcat(w[..2], w[2..]);
    }
  }

  /** The whole of `NewConstraint` on a single token: no "||", no space or
      comma, no '@' and no '#' leave it to `parseConstraint`. */
  lemma {:induction false} TokenIsWholeConstraint(s: string)
    requires TokenChars(s)
    ensures ConstraintOf(s) == ParseConstraint(s)
  {
    assert forall k :: 0 <= k < |s| ==> s[k] != '@' && s[k] != '#' && s[k] != '|' && s[k] != ' ' && s[k] != ',';
    SingleToken(s);
  }

  /** An operator followed by the written numbers and a wildcard tail. */
  lemma {:induction false} WrittenTokenChars(op: string, ns: seq<nat>, w: string)
    requires op in {"^", "~", ""} + Operators && 1 <= |ns| && WildTail(w)
    ensures TokenChars(op + DottedText(Texts(ns)) + w)
  {
    var text := DottedText(Texts(ns));
    TextsChars(ns);
    assert TokenChars(text);
    assert TokenChars(op);
    WildTailChars(w);
    TokenCharsConcat(op, text);
    TokenCharsConcat(op + text, w);
  }

  /** The text `String` gives a range between two "-dev" bounds. */
  function RangeString(ns: seq<nat>, p: nat): string
  {
    "[>= " + NumberText(Num(ns, 0), Num(ns, 1), Num(ns, 2), Num(ns, 3)) + "-dev" + " " + "< " +
    NumberText(Bump(ns, p, 1, 0), Bump(ns, p, 1, 1), Bump(ns, p, 1, 2), Bump(ns, p, 1, 3)) + "-dev]"
  }

  /** A bound ending in "-dev" loses nothing to the "-stable" strip. */
  lemma {:induction false} DevBoundText(op: string, x: string)
    ensures StripStable(op + " " + (x + "-dev")) == op + " " + (x + "-dev")
  {
    var r := op + " " + (x + "-dev");
    assert r[|r| - 1] == 'v';
    if |r| >= 7 {
      assert r[|r| - 7..][6] == r[|r| - 1];
    }
  }

  lemma {:induction false} RenderDevRange(ns: seq<nat>, p: nat)
    requires ns != [] && ns[0] < 99999
    ensures Render(Range(Written(ns, "-dev"), Bound(ns, p))) == RangeString(ns, p)
  {
    var x := NumberText(Num(ns, 0), Num(ns, 1), Num(ns, 2), Num(ns, 3));
    var y := NumberText(Bump(ns, p, 1, 0), Bump(ns, p, 1, 1), Bump(ns, p, 1, 2), Bump(ns, p, 1, 3));
    PlainVersionText(Num(ns, 0), Num(ns, 1), Num(ns, 2), Num(ns, 3), "-dev");
    PlainVersionText(Bump(ns, p, 1, 0), Bump(ns, p, 1, 1), Bump(ns, p, 1, 2), Bump(ns, p, 1, 3), "-dev");
    RenderRangeOf(Written(ns, "-dev"), Bound(ns, p), x, y);
  }

  /** `String` on a range whose bounds print with "-dev". */
  lemma {:induction false} RenderRangeOf(low: Version, high: Version, x: string, y: string)
    requires ToString(low) == x + "-dev" && ToString(high) == y + "-dev"
    ensures Render(Range(low, high)) == "[>= " + x + "-dev" + " " + "< " + y + "-dev]"
  {
    RenderBoundsOf(true, low, high, x, y);
  }

  /** `String` on a lower and an upper "-dev" bound joined by either glue
      (constraint.go:148-154). */
  lemma {:induction false} RenderBoundsOf(conjunctive: bool, low: Version, high: Version, x: string, y: string)
    requires ToString(low) == x + "-dev" && ToString(high) == y + "-dev"
    ensures Render(Node(conjunctive, [Leaf(">=", low), Leaf("<", high)])) ==
      "[>= " + x + "-dev" + Glue(conjunctive) + "< " + y + "-dev]"
  {
    var a := ">=" + " " + (x + "-dev");
    var b := "<" + " " + (y + "-dev");
    DevBoundText(">=", x);
    DevBoundText("<", y);
    var cs := [Leaf(">=", low), Leaf("<", high)];
    assert Render(cs[0]) == a && Render(cs[1]) == b;
    assert RenderEach(cs) == [a, b] by {
      assert cs[1..] == [cs[1]];
      assert RenderEach(cs[1..]) == [b];
    }
    assert Join([a, b], Glue(conjunctive)) == a + Glue(conjunctive) + b by {
      assert [a, b][1..] == [b];
    }
    RangeTextShape(x, y, Glue(conjunctive));
  }

  lemma {:induction false} RangeTextShape(x: string, y: string, glue: string)
    ensures "[" + ((">=" + " " + (x + "-dev")) + glue + ("<" + " " + (y + "-dev"))) + "]" ==
      "[>= " + x + "-dev" + glue + "< " + y + "-dev]"
  {
  }

  /** `NewConstraint` then `String` on "^" and plain numbers
      (constraint_test.go:159-171). */
  lemma {:induction false} CaretString(ns: seq<nat>)
    requires 1 <= |ns| <= 4 && ns[0] < 99999
    ensures var r := ConstraintOf("^" + DottedText(Texts(ns)));
      r.Ok? && WellFormed(r.value) && Render(r.value) == RangeString(ns, CaretPos(ns))
  {
    var s := "^" + DottedText(Texts(ns));
    WrittenTokenChars("^", ns, "");
    assert s + "" == s;
    TokenIsWholeConstraint(s);
    CaretOfNumbers(ns);
    RenderDevRange(ns, CaretPos(ns));
  }

  /** `NewConstraint` then `String` on "~" and plain numbers
      (constraint_test.go:130-135). */
  lemma {:induction false} TildeString(ns: seq<nat>)
    requires 1 <= |ns| <= 4 && ns[0] < 99999
    ensures var r := ConstraintOf("~" + DottedText(Texts(ns)));
      r.Ok? && WellFormed(r.value) && Render(r.value) == RangeString(ns, TildePos(ns))
  {
    var s := "~" + DottedText(Texts(ns));
    WrittenTokenChars("~", ns, "");
    assert s + "" == s;
    TokenIsWholeConstraint(s);
    TildeOfNumbers(ns);
    RenderDevRange(ns, TildePos(ns));
  }

  /** `NewConstraint` then `String` on plain numbers and wildcards with a
      non-zero major (constraint_test.go:98-107). */
  lemma {:induction false} XRangeString(ns: seq<nat>, w: string)
    requires 1 <= |ns| <= 3 && 0 < ns[0] < 99999 && |w| >= 2 && WildTail(w)
    ensures var r := ConstraintOf(DottedText(Texts(ns)) + w);
      r.Ok? && WellFormed(r.value) && Render(r.value) == RangeString(ns, |ns|)
  {
    var s := DottedText(Texts(ns)) + w;
    WrittenTokenChars("", ns, w);
    assert "" + DottedText(Texts(ns)) == DottedText(Texts(ns));
    TokenIsWholeConstraint(s);
    XRangeOfNumbers(ns, w);
    RenderDevRange(ns, |ns|);
  }

  /** constraint_test.go:162 end to end: `NewConstraint("^1.2").String()`
      is "[>= 1.2.0.0-dev < 2.0.0.0-dev]". */
  lemma CaretOneTwoString()
    ensures ConstraintOf("^1.2").Ok? && WellFormed(ConstraintOf("^1.2").value)
    ensures Render(ConstraintOf("^1.2").value) == "[>= 1.2.0.0-dev < 2.0.0.0-dev]"
  {
    OneTwoTexts();
    CaretString([1, 2]);
  }

  lemma OneTwoTexts()
    ensures "^" + DottedText(Texts([1, 2])) == "^1.2"
    ensures CaretPos([1, 2]) == 1
    ensures RangeString([1, 2], 1) == "[>= 1.2.0.0-dev < 2.0.0.0-dev]"
  {
    OneTwoCaretText();
    OneTwoRange();
  }

  lemma OneTwoCaretText()
    ensures "^" + DottedText(Texts([1, 2])) == "^1.2"
  {
    SmallTexts();
    assert Texts([1, 2]) == ["1", "2"];
    assert ["1", "2"][1..] == ["2"];
    assert DottedText(["1", "2"]) == "1.2";
  }

  lemma OneTwoRange()
    ensures RangeString([1, 2], 1) == "[>= 1.2.0.0-dev < 2.0.0.0-dev]"
  {
    OneTwoNumbers();
    var x, y := "1.2.0.0", "2.0.0.0";
    assert "[>= " + x + "-dev" + " " + "< " + y + "-dev]" == "[>= 1.2.0.0-dev < 2.0.0.0-dev]";
  }

  lemma OneTwoNumbers()
    ensures NumberText(1, 2, 0, 0) == "1.2.0.0"
    ensures NumberText(2, 0, 0, 0) == "2.0.0.0"
  {
    SmallTexts();
  }

  lemma SmallTexts()
    ensures NatToString(0) == "0" && NatToString(1) == "1" && NatToString(2) == "2"
  {
  }

  /** constraint_test.go:240 end to end: the two caret ranges of
      "^2.5 || ^3.0" meet at 3.0.0.0-dev, so `NewConstraint` collapses them
      into the disjunctive node "[>= 2.5.0.0-dev || < 4.0.0.0-dev]", which
      takes 1.0.0 although neither caret range does. */
  lemma CaretOrCaretString()
    ensures var r := ConstraintOf("^2.5 || ^3.0");
      r.Ok? && WellFormed(r.value) && Render(r.value) == "[>= 2.5.0.0-dev || < 4.0.0.0-dev]" &&
      Matches(r.value, PlainVersion(1, 0, 0, 0, ""))
  {
    CaretOrCaretParsed();
    CollapsedCaretsText();
  }

  lemma CaretOrCaretParsed()
    ensures ConstraintOf("^2.5 || ^3.0") == Ok(CollapsedCarets())
  {
    TwoFiveThreeTexts();
    CaretPair([2, 5], [3, 0]);
    CollapsedCaretsText();
  }

  /** Two caret tokens joined by "||" are the two caret ranges, combined
      (constraint.go:34-104, 411-442). */
  lemma {:induction false} CaretPair(ns: seq<nat>, ms: seq<nat>)
    requires 1 <= |ns| <= 4 && ns[0] < 99999 && 1 <= |ms| <= 4 && ms[0] < 99999
    ensures ConstraintOf(("^" + DottedText(Texts(ns))) + " || " + ("^" + DottedText(Texts(ms)))) ==
      Ok(Combine([Range(Written(ns, "-dev"), Bound(ns, CaretPos(ns))), Range(Written(ms, "-dev"), Bound(ms, CaretPos(ms)))]))
  {
    var a, b := "^" + DottedText(Texts(ns)), "^" + DottedText(Texts(ms));
    CaretToken(ns);
    CaretToken(ms);
    TwoTokens(a, b);
  }

  lemma {:induction false} CaretToken(ns: seq<nat>)
    requires 1 <= |ns| <= 4 && ns[0] < 99999
    ensures var a := "^" + DottedText(Texts(ns));
      '@' !in a && '#' !in a && NoSpace(a) && SepFree(OrSep, a) && SepFree(AndSep, a) && a[0] == '^' &&
      ParseConstraint(a) == Ok(Range(Written(ns, "-dev"), Bound(ns, CaretPos(ns))))
  {
    CaretTokenChars(ns);
    CaretOfNumbers(ns);
  }

  lemma {:induction false} CaretTokenChars(ns: seq<nat>)
    requires 1 <= |ns|
    ensures var a := "^" + DottedText(Texts(ns));
      '@' !in a && '#' !in a && NoSpace(a) && SepFree(OrSep, a) && SepFree(AndSep, a) && a[0] == '^'
  {
    var a := "^" + DottedText(Texts(ns));
    WrittenTokenChars("^", ns, "");
    assert a + "" == a;
  }

  lemma CollapsedCaretsText()
    ensures Combine([CaretTwoFive(), CaretThree()]) == CollapsedCarets()
    ensures WellFormed(CollapsedCarets())
    ensures Render(CollapsedCarets()) == "[>= 2.5.0.0-dev || < 4.0.0.0-dev]"
    ensures Matches(CollapsedCarets(), PlainVersion(1, 0, 0, 0, ""))
  {
    CollapseAsWrittenMatchesTooMuch();
    CombineWellFormed([CaretTwoFive(), CaretThree()]);
    var x, y := NumberText(2, 5, 0, 0), NumberText(4, 0, 0, 0);
    PlainVersionText(2, 5, 0, 0, "-dev");
    PlainVersionText(4, 0, 0, 0, "-dev");
    RenderBoundsOf(false, PlainVersion(2, 5, 0, 0, "-dev"), PlainVersion(4, 0, 0, 0, "-dev"), x, y);
    CollapsedCaretsNumbers();
  }

  /** The node constraint.go:100 builds for "^2.5 || ^3.0". */
  function CollapsedCarets(): Constraint
  {
    Node(false, [Leaf(">=", PlainVersion(2, 5, 0, 0, "-dev")), Leaf("<", PlainVersion(4, 0, 0, 0, "-dev"))])
  }

  lemma CollapsedCaretsNumbers()
    ensures "[>= " + NumberText(2, 5, 0, 0) + "-dev" + Glue(false) + "< " + NumberText(4, 0, 0, 0) + "-dev]" ==
      "[>= 2.5.0.0-dev || < 4.0.0.0-dev]"
  {
    CollapsedCaretsBounds();
  }

  lemma CollapsedCaretsBounds()
    ensures NumberText(2, 5, 0, 0) == "2.5.0.0" && NumberText(4, 0, 0, 0) == "4.0.0.0"
  {
    assert NatToString(0) == "0" && NatToString(2) == "2" && NatToString(4) == "4" && NatToString(5) == "5";
  }

  lemma TwoFiveThreeTexts()
    ensures ("^" + DottedText(Texts([2, 5]))) + " || " + ("^" + DottedText(Texts([3, 0]))) == "^2.5 || ^3.0"
    ensures Range(Written([2, 5], "-dev"), Bound([2, 5], CaretPos([2, 5]))) == CaretTwoFive()
    ensures Range(Written([3, 0], "-dev"), Bound([3, 0], CaretPos([3, 0]))) == CaretThree()
  {
    TwoFiveText();
    ThreeZeroText();
  }

  lemma TwoFiveText()
    ensures DottedText(Texts([2, 5])) == "2.5"
  {
    assert NatToString(2) == "2" && NatToString(5) == "5";
    assert Texts([2, 5]) == ["2", "5"];
    assert ["2", "5"][1..] == ["5"];
  }

  lemma ThreeZeroText()
    ensures DottedText(Texts([3, 0])) == "3.0"
  {
    assert NatToString(3) == "3" && NatToString(0) == "0";
    assert Texts([3, 0]) == ["3", "0"];
    assert ["3", "0"][1..] == ["0"];
  }

}
