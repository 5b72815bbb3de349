/** compare.go: the three-way version comparison, the operator dispatcher
    and the six comparison predicates. */
module Comparison {
  import opened Text
  import opened Versions

  /** The three outcomes of a comparison (compare.go:3-7: LessThan,
      Equal, GreaterThan). */
  const LT: int := -1
  const EQ: int := 0
  const GT: int := 1

  predicate IsOutcome(r: int)
  {
    r == LT || r == EQ || r == GT
  }

  /** `comparePart` (compare.go:102-112). */
  function ComparePart(a: nat, b: nat): (r: int)
    ensures IsOutcome(r)
    ensures r == LT <==> a < b
    ensures r == EQ <==> a == b
    ensures r == GT <==> a > b
  {
    if a > b then GT else if b > a then LT else EQ
  }

  /** The rank table of `compareStability` (compare.go:89). */
  const Ranks: map<string, nat> := map["dev" := 1, "alpha" := 2, "beta" := 3, "RC" := 4, "stable" := 5]

  /** Which rank a version without a stability suffix gets: `AsWritten` is
      the lookup of compare.go:89-99, where "" is not in the table and
      ranks 0, below "dev"; `Corrected` ranks "" as "stable". Every
      comparison below takes the ranking as a parameter that defaults to
      `AsWritten`, so the unqualified members model the code as written. */
  datatype Ranking = AsWritten | Corrected

  /** The rank of a stability name: the table's entry, 0 for a name not in
      the table ("patch" among them), and for "" 0 as written or the rank
      of "stable" when corrected. */
  function Rank(s: string, rk: Ranking := AsWritten): (r: nat)
    ensures r <= 5
    ensures s in Ranks ==> r == Ranks[s]
    ensures s !in Ranks && s != "" ==> r == 0
    ensures s == "" ==> (r == 0 <==> rk.AsWritten?)
    ensures s == "" && rk.Corrected? ==> r == Ranks["stable"]
  {
    assert "" !in Ranks by {
      assert Ranks.Keys == {"dev", "alpha", "beta", "RC", "stable"};
    }
    if s in Ranks then Ranks[s]
    else if s == "" && rk.Corrected? then Ranks["stable"]
    else 0
  }

  /** `compareStability` (compare.go:88-100): the outcome of comparing the
      two ranks. */
  function CompareStability(a: string, b: string, rk: Ranking := AsWritten): (r: int)
    ensures IsOutcome(r)
    ensures r == LT <==> Rank(a, rk) < Rank(b, rk)
    ensures r == EQ <==> Rank(a, rk) == Rank(b, rk)
    ensures r == GT <==> Rank(a, rk) > Rank(b, rk)
  {
    if Rank(a, rk) > Rank(b, rk) then GT else if Rank(a, rk) < Rank(b, rk) then LT else EQ
  }

  /** `compare` (compare.go:57-86): major, minor and patch, then the
      stability rank, then `pre()`, first difference wins. */
  function Compare(a: Version, b: Version, rk: Ranking := AsWritten): (r: int)
    ensures IsOutcome(r)
  {
    var d1 := ComparePart(MajorOf(a), MajorOf(b));
    if d1 != EQ then d1
    else
      var d2 := ComparePart(MinorOf(a), MinorOf(b));
      if d2 != EQ then d2
      else
        var d3 := ComparePart(PatchOf(a), PatchOf(b));
        if d3 != EQ then d3
        else
          var d4 := CompareStability(StabilityOf(a), StabilityOf(b), rk);
          if d4 != EQ then d4
          else if Pre(a) > Pre(b) then GT
          else if Pre(a) < Pre(b) then LT
          else EQ
  }

  /** As written, a release without a stability suffix compares below every
      version with the same numbers and a named stability, "dev" included:
      1.0.0 is below 1.0.0.0-dev, the bound "<1" expands to, so "<1" takes
      1.0.0 although constraint_test.go:448 expects it to refuse it. */
  lemma {:induction false} PlainReleaseBelowDevAsWritten(a: Version, b: Version)
    requires a.major == b.major && a.minor == b.minor && a.patch == b.patch
    requires a.stability == "" && b.stability in Ranks
    ensures Compare(a, b) == LT
  {
  }

  /** With the corrected rank a release ranks above its own pre-releases:
      1.0.0 is greater than 1.0.0-dev, 1.0.0-alpha and 1.0.0-RC, and equal
      in rank to 1.0.0-stable. */
  lemma {:induction false} PlainReleaseAboveDev(a: Version, b: Version)
    requires a.major == b.major && a.minor == b.minor && a.patch == b.patch
    requires a.stability == "" && b.stability in {"dev", "alpha", "beta", "RC"}
    ensures Compare(a, b, Corrected) == GT
  {
  }

  // ---------------------------------------------------- reference ordering

  /** The sort key a version is ordered by. */
  datatype Key = Key(major: nat, minor: nat, patch: nat, rank: nat, pre: real)

  function KeyOf(v: Version, rk: Ranking := AsWritten): Key
  {
    Key(v.major, v.minor, v.patch, Rank(v.stability, rk), Pre(v))
  }

  /** Lexicographic order on keys. */
  predicate KeyLess(x: Key, y: Key)
  {
    x.major < y.major ||
    (x.major == y.major && (x.minor < y.minor ||
    (x.minor == y.minor && (x.patch < y.patch ||
    (x.patch == y.patch && (x.rank < y.rank ||
    (x.rank == y.rank && x.pre < y.pre)))))))
  }

  /** `compare` is the lexicographic order on (major, minor, patch, rank,
      pre): LessThan exactly when the key is smaller, Equal exactly when the
      keys agree (compare.go:57-86), under either ranking. */
  lemma {:induction false} CompareIsKeyOrder(a: Version, b: Version, rk: Ranking)
    ensures Compare(a, b, rk) == LT <==> KeyLess(KeyOf(a, rk), KeyOf(b, rk))
    ensures Compare(a, b, rk) == EQ <==> KeyOf(a, rk) == KeyOf(b, rk)
    ensures Compare(a, b, rk) == GT <==> KeyLess(KeyOf(b, rk), KeyOf(a, rk))
  {
  }

  /** compare(a, a) is Equal. */
  lemma {:induction false} CompareReflexive(a: Version, rk: Ranking)
    ensures Compare(a, a, rk) == EQ
  {
  }

  /** Swapping the arguments flips the sign (compare.go:57-112). */
  lemma {:induction false} CompareAntisymmetric(a: Version, b: Version, rk: Ranking)
    ensures Compare(b, a, rk) == -Compare(a, b, rk)
  {
    CompareIsKeyOrder(a, b, rk);
    CompareIsKeyOrder(b, a, rk);
  }

  lemma {:induction false} KeyLessTransitive(x: Key, y: Key, z: Key)
    requires KeyLess(x, y) && KeyLess(y, z)
    ensures KeyLess(x, z)
  {
  }

  /** LessThan is transitive, and so is LessThan-or-Equal. */
  lemma {:induction false} CompareTransitive(a: Version, b: Version, c: Version, rk: Ranking)
    ensures Compare(a, b, rk) == LT && Compare(b, c, rk) == LT ==> Compare(a, c, rk) == LT
    ensures Compare(a, b, rk) != GT && Compare(b, c, rk) != GT ==> Compare(a, c, rk) != GT
  {
    CompareIsKeyOrder(a, b, rk);
    CompareIsKeyOrder(b, c, rk);
    CompareIsKeyOrder(a, c, rk);
    if KeyLess(KeyOf(a, rk), KeyOf(b, rk)) && KeyLess(KeyOf(b, rk), KeyOf(c, rk)) {
      KeyLessTransitive(KeyOf(a, rk), KeyOf(b, rk), KeyOf(c, rk));
    }
  }

  /** Extra, State, Metadata, Parsed and the branch/date flags are never
      consulted: versions that differ only there compare Equal, e.g.
      1.2.3.4 and 1.2.3.5 (compare.go:57-85). */
  lemma {:induction false} CompareIgnoresOtherFields(a: Version, a': Version, b: Version, rk: Ranking)
    requires a.major == a'.major && a.minor == a'.minor && a.patch == a'.patch
    requires a.stability == a'.stability && a.preRelease == a'.preRelease
    ensures Compare(a, b, rk) == Compare(a', b, rk)
    ensures Compare(a, a', rk) == EQ
  {
    PreIgnoresOtherFields(a, a');
  }

  /** The rank order as written: every name outside the table, "" and
      "patch" among them, below dev < alpha < beta < RC < stable
      (compare.go:88-100); the corrected ranking puts "" level with
      "stable". */
  lemma StabilityOrder()
    ensures Rank("") == Rank("patch") == 0
    ensures Rank("patch") < Rank("dev") < Rank("alpha") < Rank("beta") < Rank("RC") < Rank("stable")
    ensures Rank("", Corrected) == Rank("stable", Corrected)
  {
  }

  // ------------------------------------------------------ operator dispatch

  /** `Compare(b, operator)` (compare.go:35-55): any operator outside the
      table is false. */
  function CompareOp(a: Version, b: Version, op: string, rk: Ranking := AsWritten): (r: bool)
  {
    var c := Compare(a, b, rk);
    if op == ">" then c == GT
    else if op == ">=" then c == GT || c == EQ
    else if op == "<" then c == LT
    else if op == "<=" then c == LT || c == EQ
    else if op == "==" || op == "=" then c == EQ
    else if op == "!=" || op == "<>" then c != EQ
    else false
  }

  /** The operators and their synonyms, as an order relation on keys, and
      false for every other operator (compare.go:35-55). */
  lemma {:induction false} CompareOpMeaning(a: Version, b: Version, op: string, rk: Ranking)
    ensures op == ">" ==> (CompareOp(a, b, op, rk) <==> KeyLess(KeyOf(b, rk), KeyOf(a, rk)))
    ensures op == ">=" ==> (CompareOp(a, b, op, rk) <==> !KeyLess(KeyOf(a, rk), KeyOf(b, rk)))
    ensures op == "<" ==> (CompareOp(a, b, op, rk) <==> KeyLess(KeyOf(a, rk), KeyOf(b, rk)))
    ensures op == "<=" ==> (CompareOp(a, b, op, rk) <==> !KeyLess(KeyOf(b, rk), KeyOf(a, rk)))
    ensures op in {"==", "="} ==> (CompareOp(a, b, op, rk) <==> KeyOf(a, rk) == KeyOf(b, rk))
    ensures op in {"!=", "<>"} ==> (CompareOp(a, b, op, rk) <==> KeyOf(a, rk) != KeyOf(b, rk))
    ensures op !in {">", ">=", "<", "<=", "==", "=", "!=", "<>"} ==> !CompareOp(a, b, op, rk)
  {
    CompareIsKeyOrder(a, b, rk);
  }

  // The six predicate methods (compare.go:9-33).

  predicate LessThan(a: Version, b: Version)
  {
    Compare(a, b) == LT
  }

  predicate GreaterThan(a: Version, b: Version)
  {
    Compare(a, b) == GT
  }

  predicate LessThanOrEqual(a: Version, b: Version)
  {
    Compare(a, b) == LT || Compare(a, b) == EQ
  }

  predicate GreaterThanOrEqual(a: Version, b: Version)
  {
    Compare(a, b) == GT || Compare(a, b) == EQ
  }

  predicate Equal(a: Version, b: Version)
  {
    Compare(a, b) == EQ
  }

  predicate NotEqual(a: Version, b: Version)
  {
    Compare(a, b) != EQ
  }

  /** The predicates agree with the dispatcher on ">", ">=", "<", "<=",
      "==" and "!=", and NotEqual is the negation of Equal (compare.go:9-55). */
  lemma {:induction false} PredicatesAgreeWithCompareOp(a: Version, b: Version)
    ensures GreaterThan(a, b) == CompareOp(a, b, ">")
    ensures GreaterThanOrEqual(a, b) == CompareOp(a, b, ">=")
    ensures LessThan(a, b) == CompareOp(a, b, "<")
    ensures LessThanOrEqual(a, b) == CompareOp(a, b, "<=")
    ensures Equal(a, b) == CompareOp(a, b, "==") == CompareOp(a, b, "=")
    ensures NotEqual(a, b) == CompareOp(a, b, "!=") == CompareOp(a, b, "<>")
    ensures NotEqual(a, b) == !Equal(a, b)
    ensures LessThanOrEqual(a, b) == !GreaterThan(a, b)
  {
  }

  /** Equal numbers and stability fall to the numeric pre-release tail:
      "1.25.0-beta2.1" is below "1.25.0-b.3" (compare_test.go:180-190). */
  lemma PreReleaseOrdersTies()
    ensures var a := Zero.(minor := 25, major := 1, stability := "beta", preRelease := "2.1");
            var b := a.(preRelease := "3");
            Compare(a, b) == LT
  {
    var a := Zero.(minor := 25, major := 1, stability := "beta", preRelease := "2.1");
    var b := a.(preRelease := "3");
    assert RemoveAll("2.1", "beta") == "2.1";
    assert RemoveAll("3", "beta") == "3";
    assert DotIndex("2.1", 0) == 1;
    assert Value("2") == 2 && Value("1") == 1 && Value("3") == 3;
    assert Pre(a) == 2.0 + 1.0 / 10.0;
    assert Pre(b) == 3.0;
  }
}
