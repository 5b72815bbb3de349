/** What the numeric grammar reports on the texts the constraint expander
    and the branch normaliser build: dotted digit strings, optionally followed
    by "-dev". */
module GrammarFacts {
  import opened Text
  import opened Grammar

  /** ".d1.d2…": the dotted groups after the major number. */
  function DotText(ds: seq<string>): string
  {
    if ds == [] then "" else "." + ds[0] + DotText(ds[1..])
  }

  /** "d0.d1…": a version number written with dots. */
  function DottedText(ds: seq<string>): string
    requires |ds| >= 1
  {
    ds[0] + DotText(ds[1..])
  }

  predicate AllNumbers(ds: seq<string>)
  {
    forall k :: 0 <= k < |ds| ==> |ds[k]| > 0 && AllDigits(ds[k])
  }

  /** The tails the lemmas below cover: nothing, or a "-dev" marker. */
  predicate PlainTail(t: string)
  {
    t == "" || t == "-dev"
  }

  lemma {:induction false} SliceChar(s: string, i: nat, w: string, k: nat)
    requires i + |w| <= |s| && s[i..i + |w|] == w && k < |w|
    ensures s[i + k] == w[k]
  {
    assert s[i..i + |w|][k] == s[i + k];
  }

  /** A piece of a piece of `s` is a piece of `s`. */
  lemma {:induction false} SubSlice(s: string, i: nat, w: string, a: nat, b: nat)
    requires i + |w| <= |s| && s[i..i + |w|] == w && a <= b <= |w|
    ensures s[i + a..i + b] == w[a..b]
  {
    forall k | 0 <= k < b - a
      ensures s[i + a..i + b][k] == w[a..b][k]
    {
      SliceChar(s, i, w, a + k);
    }
  }

  /** A digit run bounded by a non-digit has exactly its length. */
  lemma {:induction false} DigitRunExact(s: string, i: nat, k: nat)
    requires i + k <= |s| && AllDigits(s[i..i + k])
    requires i + k == |s| || !IsDigit(s[i + k])
    ensures DigitRun(s, i) == k
    decreases k
  {
    if k > 0 {
      assert IsDigit(s[i..i + k][0]);
      assert s[i + 1..i + k] == s[i..i + k][1..];
      DigitRunExact(s, i + 1, k - 1);
    }
  }

  /** Position `e` ends the dotted groups: the text ends there, or neither a
      digit nor a '.' followed by a digit comes next. */
  predicate GroupEnd(s: string, e: nat)
  {
    e >= |s| || (!IsDigit(s[e]) && !(s[e] == '.' && e + 1 < |s| && IsDigit(s[e + 1])))
  }

  /** The first dotted group of `DotText(ds)` found at `i` in `s`. */
  lemma {:induction false} DotTextPieces(s: string, i: nat, ds: seq<string>)
    requires AllNumbers(ds) && ds != []
    requires i + |DotText(ds)| <= |s| && s[i..i + |DotText(ds)|] == DotText(ds)
    requires GroupEnd(s, i + |DotText(ds)|)
    ensures var after := i + 1 + |ds[0]|; var rest := DotText(ds[1..]);
      i + 1 < |s| && s[i] == '.' && IsDigit(s[i + 1]) &&
      after + |rest| == i + |DotText(ds)| &&
      s[i + 1..after] == ds[0] && s[after..after + |rest|] == rest &&
      (after == |s| || !IsDigit(s[after]))
  {
    DotTextShape(ds);
    DotPieces(s, i, DotText(ds), ds[0], DotText(ds[1..]));
  }

  /** `DotText` unfolded once: a dot, the first number, the rest, which is
      empty or starts with a dot. */
  lemma {:induction false} DotTextShape(ds: seq<string>)
    requires AllNumbers(ds) && ds != []
    ensures DotText(ds) == "." + ds[0] + DotText(ds[1..])
    ensures DotText(ds[1..]) == [] || DotText(ds[1..])[0] == '.'
    ensures |ds[0]| > 0 && AllDigits(ds[0])
  {
  }

  lemma {:induction false} DotPieces(s: string, i: nat, w: string, d: string, rest: string)
    requires w == "." + d + rest
    requires |d| > 0 && AllDigits(d) && (rest == [] || rest[0] == '.')
    requires i + |w| <= |s| && s[i..i + |w|] == w
    requires GroupEnd(s, i + |w|)
    ensures var after := i + 1 + |d|;
      i + 1 < |s| && s[i] == '.' && IsDigit(s[i + 1]) &&
      after + |rest| == i + |w| &&
      s[i + 1..after] == d && s[after..after + |rest|] == rest &&
      (after == |s| || !IsDigit(s[after]))
  {
    var after := i + 1 + |d|;
    SliceChar(s, i, w, 0);
    SliceChar(s, i, w, 1);
    assert IsDigit(d[0]);
    SubSlice(s, i, w, 1, 1 + |d|);
    assert w[1..1 + |d|] == d;
    SubSlice(s, i, w, 1 + |d|, |w|);
    assert w[1 + |d|..|w|] == rest;
    if after < |s| && rest != [] {
      SliceChar(s, i, w, 1 + |d|);
    }
  }

  lemma {:induction false} AllNumbersTail(ds: seq<string>)
    requires AllNumbers(ds) && ds != []
    ensures AllNumbers(ds[1..])
  {
    forall k | 0 <= k < |ds[1..]|
      ensures |ds[1..][k]| > 0 && AllDigits(ds[1..][k])
    {
      assert ds[1..][k] == ds[k + 1];
    }
  }

  lemma {:induction false} DotGroupsStep(s: string, i: nat, ds: seq<string>, max: nat, e: nat)
    requires max > 0 && ds != []
    requires i + 1 < |s| && s[i] == '.' && IsDigit(s[i + 1])
    requires DigitRun(s, i + 1) == |ds[0]|
    requires s[i + 1..i + 1 + |ds[0]|] == ds[0]
    requires DotGroups(s, i + 1 + |ds[0]|, max - 1) == (ds[1..], e)
    ensures DotGroups(s, i, max) == (ds, e)
  {
    assert [ds[0]] + ds[1..] == ds;
  }

  /** The dotted groups are read back exactly, up to a '-' or the end. */
  lemma {:induction false} DotGroupsExact(s: string, i: nat, ds: seq<string>, max: nat)
    requires AllNumbers(ds) && |ds| <= max
    requires i + |DotText(ds)| <= |s| && s[i..i + |DotText(ds)|] == DotText(ds)
    requires GroupEnd(s, i + |DotText(ds)|)
    ensures DotGroups(s, i, max) == (ds, i + |DotText(ds)|)
  {
    DotGroupsWritten(s, i, ds, max);
  }

  /** `ds`, at most `max` of them, are written dotted at `i` and end a group there. */
  predicate WrittenAt(s: string, i: nat, ds: seq<string>, max: nat)
  {
    AllNumbers(ds) && |ds| <= max &&
    i + |DotText(ds)| <= |s| && s[i..i + |DotText(ds)|] == DotText(ds) &&
    GroupEnd(s, i + |DotText(ds)|)
  }

  lemma {:induction false} DotGroupsWritten(s: string, i: nat, ds: seq<string>, max: nat)
    requires WrittenAt(s, i, ds, max)
    ensures DotGroups(s, i, max) == (ds, i + |DotText(ds)|)
    decreases ds
  {
    if ds == [] {
      DotGroupsNone(s, i, max);
    } else {
      var j := DotGroupsRest(s, i, ds, max);
      DotGroupsWritten(s, j, ds[1..], max - 1);
      DotGroupsCons(s, i, ds, max, i + |DotText(ds)|);
    }
  }

  /** The groups after the first are written where the first one ends. */
  lemma {:induction false} DotGroupsRest(s: string, i: nat, ds: seq<string>, max: nat) returns (j: nat)
    requires WrittenAt(s, i, ds, max) && ds != []
    ensures max > 0 && j == i + 1 + |ds[0]| && j + |DotText(ds[1..])| == i + |DotText(ds)|
    ensures WrittenAt(s, j, ds[1..], max - 1) && HeadAt(s, i, ds[0])
  {
    j := i + 1 + |ds[0]|;
    DotTextPieces(s, i, ds);
    AllNumbersTail(ds);
  }

  /** The groups `DotGroups` reads are the text it passes over. */
  lemma {:induction false} DotGroupsText(s: string, i: nat, max: nat)
    requires i <= |s|
    ensures ReadsBack(s, i, DotGroups(s, i, max))
    decreases max
  {
    if max > 0 && i + 1 < |s| && s[i] == '.' && IsDigit(s[i + 1]) {
      var d := DigitRun(s, i + 1);
      var rest := DotGroups(s, i + 1 + d, max - 1);
      DotGroupsText(s, i + 1 + d, max - 1);
      DotGroupsTextStep(s, i, max, d, rest);
    } else {
      assert DotGroups(s, i, max) == ([], i);
    }
  }

  lemma {:induction false} DotGroupsTextStep(s: string, i: nat, max: nat, d: nat, rest: (seq<string>, nat))
    requires max > 0 && i + 1 < |s| && s[i] == '.' && IsDigit(s[i + 1])
    requires d == DigitRun(s, i + 1) && rest == DotGroups(s, i + 1 + d, max - 1)
    requires ReadsBack(s, i + 1 + d, rest)
    ensures ReadsBack(s, i, DotGroups(s, i, max))
  {
    DotGroupsUnfold(s, i, max, d, rest);
    DotSliceSplit(s, i, i + 1 + d, rest.1);
  }

  /** The text from `i` to the end of the groups is the groups, dotted. */
  predicate ReadsBack(s: string, i: nat, r: (seq<string>, nat))
  {
    i <= r.1 <= |s| && s[i..r.1] == DotText(r.0)
  }

  lemma {:induction false} DotGroupsUnfold(s: string, i: nat, max: nat, d: nat, rest: (seq<string>, nat))
    requires max > 0 && i + 1 < |s| && s[i] == '.' && IsDigit(s[i + 1])
    requires d == DigitRun(s, i + 1) && rest == DotGroups(s, i + 1 + d, max - 1)
    ensures DotGroups(s, i, max).1 == rest.1
    ensures DotText(DotGroups(s, i, max).0) == "." + s[i + 1..i + 1 + d] + DotText(rest.0)
  {
    var ds := [s[i + 1..i + 1 + d]] + rest.0;
    assert DotGroups(s, i, max) == (ds, rest.1);
    assert ds[1..] == rest.0;
  }

  lemma {:induction false} DotSliceSplit(s: string, i: nat, m: nat, e: nat)
    requires i < m <= e <= |s| && s[i] == '.'
    ensures s[i..e] == "." + s[i + 1..m] + s[m..e]
  {
    assert s[i..e] == [s[i]] + s[i + 1..m] + s[m..e];
  }

  /** The groups of a branch match written one after another. */
  function Glued(gs: seq<string>): string
  {
    if gs == [] then "" else gs[0] + Glued(gs[1..])
  }

  /** The groups `BranchGroups` reads are the text it passes over. */
  lemma {:induction false} BranchGroupsText(s: string, i: nat, max: nat)
    requires i <= |s|
    ensures var r := BranchGroups(s, i, max); s[i..r.1] == Glued(r.0)
    decreases max
  {
    if max > 0 {
      var e := BranchGroupEnd(s, i);
      BranchGroupsText(s, e, max - 1);
      BranchGroupsStep(s, i, max, e);
    }
  }

  /** Where the first optional group read at `i` ends (`i` when absent). */
  function BranchGroupEnd(s: string, i: nat): (e: nat)
    requires i <= |s|
    ensures i <= e <= |s|
  {
    if i + 1 < |s| && s[i] == '.' && IsDigit(s[i + 1]) then i + 1 + DigitRun(s, i + 1)
    else if i + 1 < |s| && s[i] == '.' && IsWild(s[i + 1]) then i + 2
    else i
  }

  lemma {:induction false} BranchGroupsStep(s: string, i: nat, max: nat, e: nat)
    requires i <= |s| && max > 0 && e == BranchGroupEnd(s, i)
    requires var r := BranchGroups(s, e, max - 1); s[e..r.1] == Glued(r.0)
    ensures var r := BranchGroups(s, i, max); s[i..r.1] == Glued(r.0)
  {
    var rest := BranchGroups(s, e, max - 1);
    var gs := [s[i..e]] + rest.0;
    if i + 1 < |s| && s[i] == '.' && IsDigit(s[i + 1]) {
      assert BranchGroups(s, i, max) == (gs, rest.1);
    } else if i + 1 < |s| && s[i] == '.' && IsWild(s[i + 1]) {
      assert BranchGroups(s, i, max) == (gs, rest.1);
    } else {
      assert s[i..e] == "";
      assert BranchGroups(s, i, max) == (gs, rest.1);
    }
    assert gs[1..] == rest.0;
    assert s[i..rest.1] == s[i..e] + s[e..rest.1];
  }

  /** `s` is an optional 'v', then the four groups `g` one after another. */
  predicate BranchText(s: string, g: seq<string>)
  {
    |s| > 0 && |g| == 4 && s == (if s[0] == 'v' then "v" else "") + g[0] + g[1] + g[2] + g[3]
  }

  /** A branch match is the text itself: an optional 'v', then its four
      groups written one after another (parser.go:15). */
  lemma {:induction false} MatchBranchText(s: string, g: seq<string>)
    requires MatchBranch(s) == Some(g)
    ensures BranchText(s, g)
  {
    var v, n, gs := MatchBranchPieces(s);
    BranchPiecesJoin(s, v, n, gs, g);
  }

  lemma {:induction false} MatchBranchPieces(s: string) returns (v: nat, n: nat, gs: seq<string>)
    requires MatchBranch(s).Some?
    ensures |s| > 0 && v == (if s[0] == 'v' then 1 else 0) && v + n <= |s| && |gs| == 3
    ensures s[v + n..|s|] == gs[0] + gs[1] + gs[2] && MatchBranch(s) == Some([s[v..v + n]] + gs)
  {
    v := if s[0] == 'v' then 1 else 0;
    n := DigitRun(s, v);
    var b := BranchGroups(s, v + n, 3);
    gs := b.0;
    assert b.1 == |s| && v + n <= |s| && MatchBranch(s) == Some([s[v..v + n]] + gs) by {
      MatchBranchUnfold(s, v, n, b);
    }
    assert |gs| == 3 && s[v + n..|s|] == gs[0] + gs[1] + gs[2] by {
      BranchTailText(s, v + n, b);
    }
  }

  lemma {:induction false} MatchBranchUnfold(s: string, v: nat, n: nat, b: (seq<string>, nat))
    requires MatchBranch(s).Some?
    requires v == (if s[0] == 'v' then 1 else 0) && n == DigitRun(s, v) && b == BranchGroups(s, v + n, 3)
    ensures b.1 == |s| && v + n <= |s| && MatchBranch(s) == Some([s[v..v + n]] + b.0)
  {
  }

  lemma {:induction false} BranchTailText(s: string, i: nat, b: (seq<string>, nat))
    requires i <= |s| && b == BranchGroups(s, i, 3) && b.1 == |s|
    ensures |b.0| == 3 && s[i..|s|] == b.0[0] + b.0[1] + b.0[2]
  {
    BranchGroupsText(s, i, 3);
    GluedThree(b.0);
  }

  lemma {:induction false} BranchPiecesJoin(s: string, v: nat, n: nat, gs: seq<string>, g: seq<string>)
    requires |s| > 0 && v == (if s[0] == 'v' then 1 else 0) && v + n <= |s| && |gs| == 3
    requires s[v + n..|s|] == gs[0] + gs[1] + gs[2] && g == [s[v..v + n]] + gs
    ensures BranchText(s, g)
  {
    assert s[..v] == (if s[0] == 'v' then "v" else "");
    assert s == s[..v] + s[v..v + n] + s[v + n..|s|];
  }

  lemma {:induction false} GluedThree(gs: seq<string>)
    requires |gs| == 3
    ensures Glued(gs) == gs[0] + gs[1] + gs[2]
  {
    assert gs[1..][1..][1..] == [];
    assert Glued(gs[1..][1..]) == gs[2];
  }

  /** No group at a group end. */
  lemma {:induction false} DotGroupsNone(s: string, i: nat, max: nat)
    requires i <= |s| && GroupEnd(s, i)
    ensures DotGroups(s, i, max) == ([], i)
  {
    if max > 0 && i + 1 < |s| && s[i] == '.' {
      assert !IsDigit(s[i + 1]);
    }
  }

  /** One more group in front of groups already read back. */
  /** A dot, then the number `d`, which no further digit extends. */
  predicate HeadAt(s: string, i: nat, d: string)
  {
    var after := i + 1 + |d|;
    i + 1 < |s| && s[i] == '.' && IsDigit(s[i + 1]) &&
    after <= |s| && s[i + 1..after] == d && (after == |s| || !IsDigit(s[after]))
  }

  lemma {:induction false} DotGroupsCons(s: string, i: nat, ds: seq<string>, max: nat, e: nat)
    requires AllNumbers(ds) && ds != [] && |ds| <= max
    requires HeadAt(s, i, ds[0])
    requires DotGroups(s, i + 1 + |ds[0]|, max - 1) == (ds[1..], e)
    ensures DotGroups(s, i, max) == (ds, e)
  {
    DigitRunExact(s, i + 1, |ds[0]|);
    DotGroupsStep(s, i, ds, max, e);
  }

  /** Nothing left: no tag, no state, no metadata. */
  lemma {:induction false} TailAtEnd(kind: TailKind, s: string)
    ensures TailFrom(kind, s, |s|) == Some(Tail("", "", "", ""))
  {
    assert FirstTagFrom(s, |s|, 0) == |Tags|;
  }

  /** A final "-dev" is read as the `dev` tag with nothing after it. */
  lemma {:induction false} TailDevAtEnd(kind: TailKind, s: string, i: nat)
    requires i + 4 == |s| && s[i..] == "-dev"
    ensures TailFrom(kind, s, i) == Some(Tail("dev", "", "", ""))
  {
    assert s[i] == "-dev"[0];
    assert s[i + 1..i + 4] == "dev" by {
      assert s[i + 1..i + 4] == s[i..][1..];
    }
    assert LowerStr("dev") == "dev";
    assert PrefixCIAt(s, i + 1, Tags[0]);
    assert FirstTagFrom(s, i + 1, 0) == 0;
    assert TagDigitsLen(s, |s|) == 0;
    assert StateMetaEnd(kind, s, |s|) == Some(("", ""));
  }

  function PlainTailOf(t: string): Tail
  {
    if t == "" then Tail("", "", "", "") else Tail("dev", "", "", "")
  }

  lemma {:induction false} TailPlain(kind: TailKind, s: string, i: nat, t: string)
    requires PlainTail(t) && i + |t| == |s| && s[i..] == t
    ensures TailFrom(kind, s, i) == Some(PlainTailOf(t))
  {
    if t == "" {
      TailAtEnd(kind, s);
    } else {
      TailDevAtEnd(kind, s, i);
    }
  }

  /** The pieces of `DottedText(ds) + t`: the major number, the dotted
      groups from the end of the major, and the tail. */
  lemma {:induction false} DottedPieces(ds: seq<string>, t: string)
    requires 1 <= |ds| && AllNumbers(ds) && PlainTail(t)
    ensures var s := DottedText(ds) + t; var n := |ds[0]|; var e := n + |DotText(ds[1..])|;
      e + |t| == |s| && s[..n] == ds[0] && s[n..e] == DotText(ds[1..]) && s[e..] == t &&
      (n == |s| || !IsDigit(s[n])) && (e == |s| || s[e] == '-') &&
      IsDigit(s[0])
  {
    var s := DottedText(ds) + t;
    var d := ds[0];
    var rest := DotText(ds[1..]);
    assert s == d + rest + t;
    var n := |d|;
    var e := n + |rest|;
    assert s[..n] == d;
    assert s[n..e] == rest;
    assert s[e..] == t;
    assert s[0] == d[0];
    if n < |s| {
      if rest != [] {
        assert s[n] == rest[0];
      } else {
        assert s[n] == t[0];
      }
    }
    if e < |s| {
      assert s[e] == t[0];
    }
  }

  lemma {:induction false} MatchVersionStep(kind: TailKind, s: string, ciV: bool, maxMajor: nat, n: nat, numbers: seq<string>, e: nat, tail: Tail, all: seq<string>)
    requires 0 < n <= |s| && IsDigit(s[0]) && DigitRun(s, 0) == n
    requires maxMajor == 0 || n <= maxMajor
    requires DotGroups(s, n, 3) == (numbers, e)
    requires TailFrom(kind, s, e) == Some(tail)
    requires all == [s[0..n]] + numbers
    ensures MatchVersionText(kind, s, ciV, maxMajor) == Some(VersionMatch(all, tail))
  {
  }

  /** The version grammar reads a string already cut into its major digits,
      its dotted groups and a plain tail. */
  lemma {:induction false} MatchVersionOfPieces(kind: TailKind, s: string, ciV: bool, maxMajor: nat, ds: seq<string>, t: string, n: nat, e: nat)
    requires 1 <= |ds| <= 4 && AllNumbers(ds) && PlainTail(t)
    requires maxMajor == 0 || n <= maxMajor
    requires n == |ds[0]| && e == n + |DotText(ds[1..])| && e + |t| == |s|
    requires s[..n] == ds[0] && s[n..e] == DotText(ds[1..]) && s[e..] == t
    requires (n == |s| || !IsDigit(s[n])) && (e == |s| || s[e] == '-') && IsDigit(s[0])
    ensures MatchVersionText(kind, s, ciV, maxMajor) == Some(VersionMatch(ds, PlainTailOf(t)))
  {
    PiecesMajor(s, ds, n);
    PiecesGroups(s, ds, n, e);
    TailPlain(kind, s, e, t);
    MatchVersionStep(kind, s, ciV, maxMajor, n, ds[1..], e, PlainTailOf(t), ds);
  }

  lemma {:induction false} PiecesMajor(s: string, ds: seq<string>, n: nat)
    requires 1 <= |ds| && AllNumbers(ds) && n == |ds[0]| && n <= |s| && s[..n] == ds[0]
    requires n == |s| || !IsDigit(s[n])
    ensures 0 < n && DigitRun(s, 0) == n && ds == [s[0..n]] + ds[1..]
  {
    assert s[0..n] == ds[0];
    DigitRunExact(s, 0, n);
    assert ds == [ds[0]] + ds[1..];
  }

  lemma {:induction false} PiecesGroups(s: string, ds: seq<string>, n: nat, e: nat)
    requires 1 <= |ds| <= 4 && AllNumbers(ds)
    requires e == n + |DotText(ds[1..])| && e <= |s| && s[n..e] == DotText(ds[1..])
    requires e == |s| || s[e] == '-'
    ensures DotGroups(s, n, 3) == (ds[1..], e)
  {
    AllNumbersTail(ds);
    DotGroupsExact(s, n, ds[1..], 3);
  }

  /** The version grammar (numeric or loose) reads a dotted number followed
      by nothing or "-dev" back into its digit strings. */
  lemma {:induction false} MatchVersionOfDotted(kind: TailKind, ciV: bool, maxMajor: nat, ds: seq<string>, t: string)
    requires 1 <= |ds| <= 4 && AllNumbers(ds) && PlainTail(t)
    requires maxMajor == 0 || |ds[0]| <= maxMajor
    ensures MatchVersionText(kind, DottedText(ds) + t, ciV, maxMajor) == Some(VersionMatch(ds, PlainTailOf(t)))
  {
    DottedPieces(ds, t);
    MatchVersionOfPieces(kind, DottedText(ds) + t, ciV, maxMajor, ds, t, |ds[0]|, |ds[0]| + |DotText(ds[1..])|);
  }
}
