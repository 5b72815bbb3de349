/** constraint.go: the constraint tree, its evaluation and rendering, the
    expansion of wildcard, tilde, caret, x-range, hyphen and basic tokens
    into bounds, the tokenizer and the constraint parser. */
module Constraints {
  import opened Text
  import opened Grammar
  import opened Versions
  import opened Errors
  import opened Parser
  import opened Comparison
  import opened ConstraintGrammar

  /** The Constraint struct (constraint.go:12-18): a match-anything node
      (`isEmpty`), a bound (`operator` and `version`), or a node over
      `constraints` that is conjunctive or disjunctive. */
  datatype Constraint =
    | Empty
    | Leaf(op: string, version: Version)
    | Node(conjunctive: bool, children: seq<Constraint>)

  /** Every node has a child: the trees the parser builds, and the ones
      `String` can render (a childless node would be rendered as a bound
      with no version). */
  predicate WellFormed(c: Constraint)
  {
    match c
    case Node(_, cs) => |cs| >= 1 && forall k :: 0 <= k < |cs| ==> WellFormed(cs[k])
    case _ => true
  }

  /** A bound, a match-anything node or a conjunctive node with children:
      what every range builder returns. */
  predicate Simple(c: Constraint)
  {
    WellFormed(c) && (c.Node? ==> c.conjunctive)
  }

  /** The two-bound range `[>= low < high]` the range builders return. */
  function Range(low: Version, high: Version): (c: Constraint)
    ensures WellFormed(c)
  {
    Node(true, [Leaf(">=", low), Leaf("<", high)])
  }

  // ---------------------------------------------------------------- Matches

  /** `Matches` (constraint.go:106-133): a node asks its children, stopping
      at the first that decides; a childless node is read as a bound with
      no operator, which `Compare` answers false. The ranking defaults to
      the one compare.go uses. */
  predicate Matches(c: Constraint, v: Version, rk: Ranking := AsWritten)
  {
    match c
    case Empty => true
    case Leaf(op, w) => CompareOp(v, w, op, rk)
    case Node(conjunctive, cs) =>
      if |cs| == 0 then false
      else if conjunctive then AllMatchFrom(cs, 0, v, rk)
      else AnyMatchesFrom(cs, 0, v, rk)
  }

  predicate AnyMatchesFrom(cs: seq<Constraint>, i: nat, v: Version, rk: Ranking)
    decreases cs, |cs| - i
  {
    i < |cs| && (Matches(cs[i], v, rk) || AnyMatchesFrom(cs, i + 1, v, rk))
  }

  predicate AllMatchFrom(cs: seq<Constraint>, i: nat, v: Version, rk: Ranking)
    decreases cs, |cs| - i
  {
    i >= |cs| || (Matches(cs[i], v, rk) && AllMatchFrom(cs, i + 1, v, rk))
  }

  // ------------------------------------------------------------------ String

  /** The glue between children (constraint.go:148-154). */
  function Glue(conjunctive: bool): string
  {
    if conjunctive then " " else " || "
  }

  /** A bound without its trailing "-stable" (constraint.go:141-145). */
  function StripStable(r: string): (t: string)
    ensures |r| >= 7 && r[|r| - 7..] == "-stable" ==> r == t + "-stable"
    ensures !(|r| >= 7 && r[|r| - 7..] == "-stable") ==> t == r
  {
    if |r| >= 7 && r[|r| - 7..] == "-stable" then r[..|r| - 7] else r
  }

  /** `String` (constraint.go:135-174) as a function. */
  function Render(c: Constraint): string
    requires WellFormed(c)
  {
    match c
    case Empty => "[]"
    case Leaf(op, w) => StripStable(op + " " + ToString(w))
    case Node(conjunctive, cs) =>
      if |cs| == 1 then (if cs[0].Empty? then "[]" else Render(cs[0]))
      else "[" + Join(RenderEach(cs), Glue(conjunctive)) + "]"
  }

  function RenderEach(cs: seq<Constraint>): (r: seq<string>)
    requires forall k :: 0 <= k < |cs| ==> WellFormed(cs[k])
    ensures |r| == |cs|
    decreases cs
  {
    if cs == [] then [] else [Render(cs[0])] + RenderEach(cs[1..])
  }

  lemma {:induction false} RenderEachIs(cs: seq<Constraint>, parts: seq<string>)
    requires forall k :: 0 <= k < |cs| ==> WellFormed(cs[k])
    requires |parts| == |cs| && forall k :: 0 <= k < |cs| ==> parts[k] == Render(cs[k])
    ensures parts == RenderEach(cs)
    decreases |cs|
  {
    if cs != [] {
      RenderEachIs(cs[1..], parts[1..]);
    }
  }

  /** `String` (constraint.go:135-174): the child strings are collected in
      a loop and joined. */
  method String(c: Constraint) returns (s: string)
    requires WellFormed(c)
    ensures s == Render(c)
    decreases c, 1
  {
    match c {
      case Empty =>
        s := "[]";
      case Leaf(op, w) =>
        var result := op + " " + ToString(w);
        if |result| >= 7 && result[|result| - 7..] == "-stable" {
          result := result[..|result| - 7];
        }
        s := result;
      case Node(conjunctive, cs) =>
        if |cs| == 1 {
          if cs[0].Empty? {
            s := "[]";
          } else {
            s := String(cs[0]);
          }
        } else {
          s := ChildrenString(conjunctive, cs);
        }
    }
  }

  /** The loop of `String` over the children of a node (constraint.go:168-173). */
  method ChildrenString(conjunctive: bool, cs: seq<Constraint>) returns (s: string)
    requires forall k :: 0 <= k < |cs| ==> WellFormed(cs[k])
    ensures s == "[" + Join(RenderEach(cs), Glue(conjunctive)) + "]"
    decreases cs, 0
  {
    var parts: seq<string> := [];
    for i := 0 to |cs|
      invariant |parts| == i
      invariant forall k :: 0 <= k < i ==> parts[k] == Render(cs[k])
    {
      var p := String(cs[i]);
      parts := parts + [p];
    }
    RenderEachIs(cs, parts);
    s := "[" + Join(parts, Glue(conjunctive)) + "]";
  }

  // ----------------------------------------------------------- expandVersion

  /** Slot `i` (1 to 4) of the text `expandVersion` builds
      (constraint.go:500-517): the pad right of the position, the component
      plus the increment at it, the component itself left of it. */
  function Slot(m: seq<string>, position: nat, increment: nat, pad: string, i: nat): string
    requires |m| == 5 && 1 <= i <= 4
  {
    if i > position then pad
    else if i == position && increment > 0 then NatToString(CastToInt(m[i]) + increment)
    else m[i]
  }

  /** "%s.%s.%s.%s%s" over the four slots and the suffix (constraint.go:521). */
  function ExpandedText(m: seq<string>, position: nat, increment: nat, pad: string, suffix: string): string
    requires |m| == 5
  {
    Slot(m, position, increment, pad, 1) + "." + Slot(m, position, increment, pad, 2) + "." +
    Slot(m, position, increment, pad, 3) + "." + Slot(m, position, increment, pad, 4) + suffix
  }

  /** `expandVersion` (constraint.go:494-528): fills a 5-slot array from the
      last component down, then parses the text. */
  method ExpandVersion(m: seq<string>, position: nat, increment: nat, pad: string, suffix: string) returns (r: Result<Version>)
    requires |m| == 5
    ensures r == NewVersion(ExpandedText(m, position, increment, pad, suffix))
  {
    var result := new string[5];
    var i := 4;
    while i > 0
      invariant 0 <= i <= 4
      invariant forall k :: i < k <= 4 ==> result[k - 1] == Slot(m, position, increment, pad, k)
    {
      if i > position {
        result[i - 1] := pad;
      } else if i == position && increment > 0 {
        var currentValue := CastToInt(m[i]);
        result[i - 1] := NatToString(currentValue + increment);
      } else {
        result[i - 1] := m[i];
      }
      i := i - 1;
    }
    result[4] := suffix;
    r := NewVersion(result[0] + "." + result[1] + "." + result[2] + "." + result[3] + result[4]);
  }

  // ---------------------------------------------------------- range builders

  /** The match array of a version-shaped token: "" then the four numeric
      groups, absent ones as "". */
  function Groups(m: VersionMatch): (g: seq<string>)
    ensures |g| == 5 && g[0] == ""
  {
    ["", NumberGroup(m.numbers, 0), NumberGroup(m.numbers, 1), NumberGroup(m.numbers, 2), NumberGroup(m.numbers, 3)]
  }

  function NumberGroup(numbers: seq<string>, k: nat): string
  {
    if k < |numbers| then numbers[k] else ""
  }

  /** The last non-empty group from `top` down to 1, or 0. */
  function LastGiven(g: seq<string>, top: nat): (p: nat)
    requires top < |g|
    ensures p <= top
    ensures p > 0 ==> g[p] != ""
    ensures forall k :: p < k <= top ==> g[k] == ""
  {
    if top == 0 then 0 else if g[top] != "" then top else LastGiven(g, top - 1)
  }

  /** The message of the "~>" error (constraint.go:455-456). */
  function TildeMessage(constraint: string): string
  {
    "Could not parse version constraint " + constraint +
    ": Invalid operator \"~>\", you probably meant to use the \"~\" operator"
  }

  /** `parseTilde` (constraint.go:451-473): the "~>" refusal, the last
      given group and the stability suffix. */
  function ParseTilde(constraint: string): (r: Result<Constraint>)
    requires MatchTilde(constraint).Some?
    ensures r.Ok? ==> Simple(r.value)
  {
    var m := MatchTilde(constraint).value;
    if constraint[..2] == "~>" then Err(InvalidOperator(TildeMessage(constraint)))
    else
      var g := Groups(m);
      var position := LastGiven(g, 4);
      var tagSuffix := if m.tail.tag != "" then "-" + ExpandStability(m.tail.tag) + m.tail.tagDigits else "";
      var suffix := if m.tail.state != "" || tagSuffix == "" then "-dev" else tagSuffix;
      TildeBounds(g, position, suffix)
  }

  /** The two bounds of a tilde range (constraint.go:474-491): the version
      up to `position` with the suffix, and the "-dev" version incremented
      one position further left, but never left of the major. */
  function TildeBounds(g: seq<string>, position: nat, suffix: string): (r: Result<Constraint>)
    requires |g| == 5
    ensures r.Ok? ==> Simple(r.value)
  {
    var low :- NewVersion(ExpandedText(g, position, 0, "0", suffix));
    var highPosition := if position >= 2 then position - 1 else 1;
    var high :- NewVersion(ExpandedText(g, highPosition, 1, "0", "-dev"));
    Ok(Range(low, high))
  }

  /** The position `caretRange` increments (constraint.go:416-422). */
  function CaretPosition(g: seq<string>): (p: nat)
    requires |g| == 5
    ensures 1 <= p <= 3
  {
    if g[1] != "0" || g[2] == "" then 1
    else if g[2] != "0" || g[3] == "" then 2
    else 3
  }

  /** `caretRange` (constraint.go:411-442). */
  function CaretRange(constraint: string): (r: Result<Constraint>)
    requires MatchCaret(constraint).Some?
    ensures r.Ok? ==> Simple(r.value)
  {
    var m := MatchCaret(constraint).value;
    var g := Groups(m);
    var suffix := if m.tail.tag == "" && m.tail.state == "" then "-dev" else "";
    var low :- NewVersion(constraint[1..] + suffix);
    var high :- NewVersion(ExpandedText(g, CaretPosition(g), 1, "0", "-dev"));
    Ok(Range(low, high))
  }

  /** The match array of an x-range: "" then the three numeric groups; the
      fourth slot is never read because the position is at most 3. */
  function XGroups(numbers: seq<string>): (g: seq<string>)
    ensures |g| == 5
  {
    ["", NumberGroup(numbers, 0), NumberGroup(numbers, 1), NumberGroup(numbers, 2), ""]
  }

  /** `xRange` (constraint.go:374-402). */
  function XRange(constraint: string): (r: Result<Constraint>)
    requires MatchXRange(constraint).Some?
    ensures r.Ok? ==> Simple(r.value)
  {
    var g := XGroups(MatchXRange(constraint).value);
    var position := LastGiven(g, 3);
    var low :- NewVersion(ExpandedText(g, position, 0, "0", "-dev"));
    var high :- NewVersion(ExpandedText(g, position, 1, "0", "-dev"));
    if ToString(low) == "0.0.0.0-dev" then Ok(Leaf("<", high)) else Ok(Range(low, high))
  }

  /** `hyphenRange` (constraint.go:316-366). */
  function HyphenRange(constraint: string): (r: Result<Constraint>)
    requires MatchHyphen(constraint).Some?
    ensures r.Ok? ==> Simple(r.value)
  {
    var h := MatchHyphen(constraint).value;
    var low :- NewVersion(HyphenLowText(h));
    HyphenUpper(low, h.high, h.highMatch)
  }

  /** The lower side gets "-dev" when it has no tag and no state
      (constraint.go:323-330). */
  function HyphenLowText(h: HyphenMatch): string
  {
    var a := h.lowMatch.tail;
    h.low + (if a.tag == "" && a.state == "" then "-dev" else "")
  }

  /** An upper side with a patch and an extra number, or with a tag or a
      state, is an inclusive bound as written (constraint.go:334-340). */
  predicate UpperIsExact(m: VersionMatch)
  {
    var g := Groups(m);
    (g[2] != "" && g[3] != "") || m.tail.tag != "" || m.tail.state != ""
  }

  /** The upper half of `hyphenRange` (constraint.go:333-363): a complete
      or tagged upper version is an inclusive bound, a partial one is
      expanded to the next minor or major as an exclusive "-dev" bound. */
  function HyphenUpper(low: Version, high: string, m: VersionMatch): (r: Result<Constraint>)
    ensures r.Ok? ==> Simple(r.value)
  {
    var g := Groups(m);
    if UpperIsExact(m) then
      var v :- NewVersion(high);
      Ok(Node(true, [Leaf(">=", low), Leaf("<=", v)]))
    else
      var position := if g[2] == "" then 1 else 2;
      var v :- NewVersion(ExpandedText(g, position, 1, "0", "-dev"));
      Ok(Range(low, v))
  }

  /** operatorMap (constraint.go:22) applied after an absent operator has
      become "=" (constraint.go:299-305). */
  function NormalizeOperator(op: string): string
  {
    if op == "" || op == "=" || op == "==" then "=="
    else if op == "<>" || op == "!=" then "!="
    else op
  }

  /** The version text `basicRange` parses (constraint.go:268-291): the
      "@stability" modifier is appended as a tag when the text has none,
      and "<" and ">=" bounds without a tag or "dev-" prefix get "-dev". */
  function BasicVersionText(constraint: string): (r: (string, string))
  {
    var (text, stability) :=
      match MatchModifier(constraint)
      case Some(md) => (md.head, if md.stability != "stable" then md.stability else "")
      case None => (constraint, "");
    var (op, version) := MatchComparison(text);
    if stability != "" && ParseStability(version) == "stable" then (op, version + "-" + stability)
    else if (op == "<" || op == ">=") && FindTag(version).None? && !(|version| >= 4 && version[..4] == "dev-") then
      (op, version + "-dev")
    else (op, version)
  }

  /** `basicRange` (constraint.go:267-306). */
  function BasicRange(constraint: string): (r: Result<Constraint>)
    ensures r.Ok? ==> r.value.Leaf?
  {
    var (op, version) := BasicVersionText(constraint);
    var v :- NewVersion(version);
    Ok(Leaf(NormalizeOperator(op), v))
  }

  /** `parseConstraint` (constraint.go:237-265): the first grammar that
      matches decides. The simple comparison always matches, so the final
      error is unreachable. */
  function ParseConstraint(constraint: string): (r: Result<Constraint>)
    ensures r.Ok? ==> Simple(r.value)
  {
    if IsWildcard(constraint) then Ok(Empty)
    else if MatchTilde(constraint).Some? then ParseTilde(constraint)
    else if MatchCaret(constraint).Some? then CaretRange(constraint)
    else if MatchXRange(constraint).Some? then XRange(constraint)
    else if MatchHyphen(constraint).Some? then HyphenRange(constraint)
    else BasicRange(constraint)
  }

  // ---------------------------------------------------------------- tokenizer

  /** The tokens `parseAndConstraints` glues to the part after them
      (constraint.go:206). */
  const OperatorTokens: set<string> := {"<", ">", ">=", "<=", "^", "!="}

  /** A part that is glued to the part after it (constraint.go:206). */
  predicate IsOperatorToken(part: string)
  {
    part in OperatorTokens
  }

  /** A part that joins the parts on either side of it (constraint.go:221). */
  predicate Joins(part: string)
  {
    part == "as" || part == "-"
  }

  /** The non-empty pieces, in order (constraint.go:189-194). */
  function NonEmpty(pieces: seq<string>): (r: seq<string>)
    ensures forall k :: 0 <= k < |r| ==> r[k] != ""
    ensures |r| <= |pieces|
  {
    if pieces == [] then []
    else (if pieces[0] != "" then [pieces[0]] else []) + NonEmpty(pieces[1..])
  }

  /** `done` in front of a list that may have failed. */
  function Prepend<T>(done: seq<T>, r: Result<seq<T>>): Result<seq<T>>
  {
    match r
    case Ok(rest) => Ok(done + rest)
    case Err(e) => Err(e)
  }

  /** The tokens the loop of `parseAndConstraints` (constraint.go:198-232)
      produces from `parts[index..]`: an operator token takes the next part,
      and a following "as" or "-" takes two parts more. Go indexes past the
      end when those two parts are missing. */
  function Gather(parts: seq<string>, index: nat): Result<seq<string>>
    decreases |parts| - index
  {
    if index >= |parts| then Ok([])
    else
      var j := if IsOperatorToken(parts[index]) then index + 1 else index;
      var head := if j > index then parts[index] else "";
      if j >= |parts| then Ok([head])
      else
        var token := head + parts[j];
        if j + 1 >= |parts| then Ok([token])
        else if Joins(parts[j + 1]) then
          if j + 2 >= |parts| then Err(IndexPanic)
          else Prepend([token + " " + parts[j + 1] + " " + parts[j + 2]], Gather(parts, j + 3))
        else Prepend([token], Gather(parts, j + 1))
  }

  /** `parseAndConstraints` (constraint.go:176-235) as a function. */
  function AndConstraints(constraint: string): Result<seq<string>>
  {
    var split := Split(AndSep, constraint);
    if |split| == 1 then Ok([constraint]) else Gather(NonEmpty(split), 0)
  }

  lemma {:induction false} PrependPrepend<T>(a: seq<T>, b: seq<T>, r: Result<seq<T>>)
    ensures Prepend(a, Prepend(b, r)) == Prepend(a + b, r)
  {
    match r
    case Ok(rest) => assert a + (b + rest) == a + b + rest;
    case Err(_) =>
  }

  lemma {:induction false} PrependNothing<T>(r: Result<seq<T>>)
    ensures Prepend([], r) == r
  {
    match r
    case Ok(rest) => assert [] + rest == rest;
    case Err(_) =>
  }

  /** `parseAndConstraints` (constraint.go:176-235): walks the parts with an
      index, extending the current token in place. */
  method ParseAndConstraints(constraint: string) returns (r: Result<seq<string>>)
    ensures r == AndConstraints(constraint)
  {
    var split := Split(AndSep, constraint);
    if |split| == 1 {
      return Ok([constraint]);
    }
    r := GatherParts(NonEmpty(split));
  }

  /** One step of `Gather` from `i`, after the operator token (if any):
      the operand is at `j` and the part so far is `head`. */
  predicate GatherHead(parts: seq<string>, i: nat, j: nat, head: string)
  {
    i < |parts| && j == (if IsOperatorToken(parts[i]) then i + 1 else i) &&
    head == (if j > i then parts[i] else "")
  }

  /** An operator token in the last part is a part of its own. */
  lemma {:induction false} GatherOperatorLast(parts: seq<string>, i: nat, j: nat, head: string)
    requires GatherHead(parts, i, j, head) && j >= |parts|
    ensures Gather(parts, i) == Ok([head])
  {
  }

  /** The last operand ends the gathering. */
  lemma {:induction false} GatherOperandLast(parts: seq<string>, i: nat, j: nat, head: string)
    requires GatherHead(parts, i, j, head) && j + 1 == |parts|
    ensures Gather(parts, i) == Ok([head + parts[j]])
  {
  }

  /** A joining part with nothing after it indexes past the end. */
  lemma {:induction false} GatherJoinPanics(parts: seq<string>, i: nat, j: nat, head: string)
    requires GatherHead(parts, i, j, head) && j + 2 == |parts| && Joins(parts[j + 1])
    ensures Gather(parts, i) == Err(IndexPanic)
  {
  }

  /** A joining part takes the operand before and the part after it. */
  lemma {:induction false} GatherJoined(parts: seq<string>, i: nat, j: nat, head: string)
    requires GatherHead(parts, i, j, head) && j + 2 < |parts| && Joins(parts[j + 1])
    ensures Gather(parts, i) == Prepend([head + parts[j] + " " + parts[j + 1] + " " + parts[j + 2]], Gather(parts, j + 3))
  {
  }

  /** Otherwise the operand (with its operator) is one part. */
  lemma {:induction false} GatherSingle(parts: seq<string>, i: nat, j: nat, head: string)
    requires GatherHead(parts, i, j, head) && j + 1 < |parts| && !Joins(parts[j + 1])
    ensures Gather(parts, i) == Prepend([head + parts[j]], Gather(parts, j + 1))
  {
  }

  /** The token-joining loop of constraint.go:198-232 over the non-empty
      pieces. */
  method GatherParts(parts: seq<string>) returns (r: Result<seq<string>>)
    ensures r == Gather(parts, 0)
  {
    var partsLen := |parts|;
    var index := 0;
    var constraints: seq<string> := [];
    PrependNothing(Gather(parts, 0));
    while true
      invariant Gather(parts, 0) == Prepend(constraints, Gather(parts, index))
      decreases partsLen - index
    {
      if index >= partsLen {
        assert constraints + [] == constraints;
        return Ok(constraints);
      }
      ghost var start := index;
      // the element appended at constraint.go:204, which the step grows
      var part := "";
      if IsOperatorToken(parts[index]) {
        part := part + parts[index];
        assert part == parts[start];
        index := index + 1;
        if index >= partsLen {
          GatherOperatorLast(parts, start, index, part);
          return Ok(constraints + [part]);
        }
      }
      assert GatherHead(parts, start, index, part);
      ghost var head := part;
      part := part + parts[index];
      if index + 1 >= partsLen {
        GatherOperandLast(parts, start, index, head);
        return Ok(constraints + [part]);
      }
      if Joins(parts[index + 1]) {
        ghost var j := index;
        index := index + 1;
        part := part + " " + parts[index];
        index := index + 1;
        if index >= partsLen {
          GatherJoinPanics(parts, start, j, head);
          return Err(IndexPanic);
        }
        part := part + " " + parts[index];
        GatherJoined(parts, start, j, head);
      } else {
        GatherSingle(parts, start, index, head);
      }
      index := index + 1;
      PrependPrepend(constraints, [part], Gather(parts, index));
      constraints := constraints + [part];
    }
  }

  // ------------------------------------------------------------ NewConstraint

  /** A parsed token's contribution to an AND group: its children when it
      has some, else itself (constraint.go:66-70). */
  function Contribution(c: Constraint): seq<Constraint>
  {
    if c.Node? && |c.children| > 0 then c.children else [c]
  }

  /** The children of an AND group, first failure first (constraint.go:59-71). */
  function AndChildren(tokens: seq<string>, i: nat): Result<seq<Constraint>>
    decreases |tokens| - i
  {
    if i >= |tokens| then Ok([])
    else
      var c :- ParseConstraint(tokens[i]);
      Prepend(Contribution(c), AndChildren(tokens, i + 1))
  }

  /** The constraint of one OR piece (constraint.go:54-83): several tokens
      make a conjunctive node; a single token, or none, parses the piece
      itself. */
  function OrGroup(piece: string): Result<Constraint>
  {
    var ands :- AndConstraints(piece);
    if |ands| > 1 then
      var cs :- AndChildren(ands, 0);
      Ok(Node(true, cs))
    else ParseConstraint(piece)
  }

  function OrGroups(pieces: seq<string>, i: nat): Result<seq<Constraint>>
    decreases |pieces| - i
  {
    if i >= |pieces| then Ok([])
    else
      var g :- OrGroup(pieces[i]);
      Prepend([g], OrGroups(pieces, i + 1))
  }

  /** The two groups have the shape `[>= L, < H]` each, and the first upper
      bound renders as the second lower bound (constraint.go:89-98). */
  predicate Contiguous(g0: Constraint, g1: Constraint)
  {
    g0.Node? && g1.Node? && |g0.children| == 2 && |g1.children| == 2 &&
    g0.children[0].Leaf? && g0.children[0].op == ">=" &&
    g0.children[1].Leaf? && g0.children[1].op == "<" &&
    g1.children[0].Leaf? && g1.children[0].op == ">=" &&
    g1.children[1].Leaf? && g1.children[1].op == "<" &&
    ToString(g0.children[1].version) == ToString(g1.children[0].version)
  }

  /** The node constraint.go:100 builds from two contiguous ranges: the
      first lower bound and the second upper bound, disjunctive, which
      every version satisfies. */
  function CollapseAsWritten(g0: Constraint, g1: Constraint): Constraint
    requires Contiguous(g0, g1)
  {
    Node(false, [g0.children[0], g1.children[1]])
  }

  /** The collapse evidently intended: the same two bounds, conjunctive,
      which is the union of the two ranges (`ConstraintFacts.CollapseIsUnion`). */
  function Collapse(g0: Constraint, g1: Constraint): Constraint
    requires Contiguous(g0, g1)
  {
    Node(true, [g0.children[0], g1.children[1]])
  }

  /** The result of the OR groups (constraint.go:87-103): one group is
      returned as it is, two contiguous ranges are collapsed as the source
      does, and anything else becomes a disjunction. */
  function Combine(groups: seq<Constraint>): Constraint
  {
    if |groups| == 1 then groups[0]
    else if |groups| == 2 && Contiguous(groups[0], groups[1]) then CollapseAsWritten(groups[0], groups[1])
    else Node(false, groups)
  }

  /** The text left after the "@stability" flag and the "#reference" of a
      dev constraint are removed (constraint.go:35-47). */
  function ConstraintText(constraint: string): string
  {
    var afterFlag := match MatchModifier(constraint) case Some(md) => md.head case None => constraint;
    match MatchDevRef(constraint) case Some(head) => head case None => afterFlag
  }

  /** `NewConstraint` (constraint.go:34-104) as a function. */
  function ConstraintOf(constraint: string): Result<Constraint>
  {
    var groups :- OrGroups(Split(OrSep, ConstraintText(constraint)), 0);
    Ok(Combine(groups))
  }

  /** The body of the OR loop of `NewConstraint` (constraint.go:54-83):
      the AND tokens of one piece, parsed and appended in a loop. */
  method ParseOrGroup(piece: string) returns (r: Result<Constraint>)
    ensures r == OrGroup(piece)
  {
    var andConstraints := ParseAndConstraints(piece);
    if andConstraints.Err? {
      return Err(andConstraints.error);
    }
    var ands := andConstraints.value;
    if |ands| > 1 {
      var andRange: seq<Constraint> := [];
      PrependNothing(AndChildren(ands, 0));
      for j := 0 to |ands|
        invariant AndChildren(ands, 0) == Prepend(andRange, AndChildren(ands, j))
      {
        var c := ParseConstraint(ands[j]);
        if c.Err? {
          return Err(c.error);
        }
        PrependPrepend(andRange, Contribution(c.value), AndChildren(ands, j + 1));
        andRange := andRange + Contribution(c.value);
      }
      assert andRange + [] == andRange;
      return Ok(Node(true, andRange));
    }
    r := ParseConstraint(piece);
  }

  /** `NewConstraint` (constraint.go:34-104): loops over the OR pieces,
      appending each group, then combines them. */
  method NewConstraint(constraint: string) returns (r: Result<Constraint>)
    ensures r == ConstraintOf(constraint)
  {
    var version := ConstraintText(constraint);
    var orConstraints := Split(OrSep, version);
    var orGroups := ParseOrGroups(orConstraints);
    if orGroups.Err? {
      return Err(orGroups.error);
    }
    return Ok(Combine(orGroups.value));
  }

  /** The loop of constraint.go:52-85 over the OR pieces, stopping at the
      first piece that fails. */
  method ParseOrGroups(orConstraints: seq<string>) returns (r: Result<seq<Constraint>>)
    ensures r == OrGroups(orConstraints, 0)
  {
    var orGroups: seq<Constraint> := [];
    PrependNothing(OrGroups(orConstraints, 0));
    for i := 0 to |orConstraints|
      invariant OrGroups(orConstraints, 0) == Prepend(orGroups, OrGroups(orConstraints, i))
    {
      var group := ParseOrGroup(orConstraints[i]);
      if group.Err? {
        OrGroupsFail(orGroups, orConstraints, i);
        return Err(group.error);
      }
      OrGroupsStep(orGroups, orConstraints, i, group.value);
      orGroups := orGroups + [group.value];
    }
    OrGroupsDone(orGroups, orConstraints);
    return Ok(orGroups);
  }

  /** One successful piece moves from the pending groups to the done ones. */
  lemma {:induction false} OrGroupsStep(done: seq<Constraint>, pieces: seq<string>, i: nat, g: Constraint)
    requires i < |pieces| && OrGroup(pieces[i]) == Ok(g)
    ensures Prepend(done, OrGroups(pieces, i)) == Prepend(done + [g], OrGroups(pieces, i + 1))
  {
    PrependPrepend(done, [g], OrGroups(pieces, i + 1));
  }

  /** Past the last piece the loop has its result. */
  lemma {:induction false} OrGroupsDone(done: seq<Constraint>, pieces: seq<string>)
    ensures Prepend(done, OrGroups(pieces, |pieces|)) == Ok(done)
  {
    assert done + [] == done;
  }

  /** A failing piece fails the whole loop with its error. */
  lemma {:induction false} OrGroupsFail(done: seq<Constraint>, pieces: seq<string>, i: nat)
    requires i < |pieces| && OrGroup(pieces[i]).Err?
    ensures Prepend(done, OrGroups(pieces, i)) == Err(OrGroup(pieces[i]).error)
  {
  }
}
