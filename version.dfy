/** The normalised version record of version.go and its canonical rendering. */
module Versions {
  import opened Text

  /** The reserved major number of the master/trunk/default branches. */
  const Sentinel: nat := 9999999

  /** version.go:10-20. `isBranch` and `isDate` select the branch/date
      rendering; the diagnostic `Original` field is not modelled. */
  datatype Version = Version(
    major: nat, minor: nat, patch: nat, extra: nat,
    preRelease: string,
    state: string,
    stability: string,
    metadata: string,
    parsed: string,
    isDate: bool,
    isBranch: bool)

  /** The sentinel's decimal text, read both ways. */
  lemma SentinelText()
    ensures NatToString(Sentinel) == "9999999"
    ensures AllDigits("9999999") && Value("9999999") == Sentinel
  {
    assert DigitChar(9) == '9';
    assert NatToString(9) == "9";
    assert NatToString(99) == NatToString(9) + "9";
    assert NatToString(999) == NatToString(99) + "9";
    assert NatToString(9999) == NatToString(999) + "9";
    assert NatToString(99999) == NatToString(9999) + "9";
    assert NatToString(999999) == NatToString(99999) + "9";
    assert NatToString(9999999) == NatToString(999999) + "9";
  }

  /** A version with every field at Go's zero value. */
  const Zero: Version := Version(0, 0, 0, 0, "", "", "", "", "", false, false)

  /** The dotted number part of a numeric version: "M.m.p.e", or the
      sentinel alone. */
  function NumberPart(v: Version): string
  {
    NatToString(v.major) +
    if v.major != Sentinel then
      "." + NatToString(v.minor) + "." + NatToString(v.patch) + "." + NatToString(v.extra)
    else ""
  }

  /** `String()` for a numeric version (version.go:47-68): the number part,
      then "-" and the stability, the pre-release tail with no separator, and
      "-" and the state, each only when non-empty. */
  function NumericString(v: Version): string
  {
    NumberPart(v) +
    (if v.stability != "" then "-" + v.stability else "") +
    v.preRelease +
    (if v.state != "" then "-" + v.state else "")
  }

  /** `branchString` (version.go:74-89): the parsed head, "-" and the
      stability when present, the patch number when non-zero, then the
      metadata verbatim. */
  function BranchString(v: Version): string
  {
    v.parsed +
    (if v.stability != "" then "-" + v.stability else "") +
    (if v.patch != 0 then NatToString(v.patch) else "") +
    v.metadata
  }

  /** `String()` (version.go:43-71). */
  function ToString(v: Version): string
  {
    if v.isBranch || v.isDate then BranchString(v) else NumericString(v)
  }

  // Accessors (version.go:22-40).

  function MajorOf(v: Version): (r: nat)
    ensures r == v.major
  {
    v.major
  }

  function MinorOf(v: Version): (r: nat)
    ensures r == v.minor
  {
    v.minor
  }

  function PatchOf(v: Version): (r: nat)
    ensures r == v.patch
  {
    v.patch
  }

  function StabilityOf(v: Version): (r: string)
    ensures r == v.stability
  {
    v.stability
  }

  /** `cast.ToFloat32` on the pre-release text, restricted to the decimal
      forms "D" and "D.D" (digits on both sides); any other text gives 0. */
  function DecimalOrZero(s: string): (r: real)
    ensures r >= 0.0
    ensures |s| > 0 && AllDigits(s) ==> r == Value(s) as real
  {
    var i := DotIndex(s, 0);
    if |s| > 0 && AllDigits(s) then Value(s) as real
    else if 0 < i < |s| - 1 && AllDigits(s[..i]) && AllDigits(s[i + 1..]) then
      Value(s[..i]) as real + Value(s[i + 1..]) as real / Pow10(|s| - i - 1) as real
    else 0.0
  }

  function DotIndex(s: string, i: nat): (r: nat)
    requires i <= |s|
    ensures i <= r <= |s|
    ensures r < |s| ==> s[r] == '.'
    ensures forall k :: i <= k < r ==> s[k] != '.'
    decreases |s| - i
  {
    if i == |s| || s[i] == '.' then i else DotIndex(s, i + 1)
  }

  /** `pre()` (version.go:34-36): the pre-release tail with every occurrence
      of the stability text removed, read as a number. */
  function Pre(v: Version): (r: real)
    ensures r >= 0.0
  {
    DecimalOrZero(RemoveAll(v.preRelease, v.stability))
  }

  /** Only the stability and pre-release fields reach `pre()`. */
  lemma {:induction false} PreIgnoresOtherFields(a: Version, b: Version)
    requires a.preRelease == b.preRelease && a.stability == b.stability
    ensures Pre(a) == Pre(b)
  {
  }

  /** Metadata (and every branch/date field) never reaches the numeric rendering. */
  lemma {:induction false} NumericStringIgnoresMetadata(a: Version, b: Version)
    requires !(a.isBranch || a.isDate) && !(b.isBranch || b.isDate)
    requires a.major == b.major && a.minor == b.minor && a.patch == b.patch && a.extra == b.extra
    requires a.stability == b.stability && a.preRelease == b.preRelease && a.state == b.state
    ensures ToString(a) == ToString(b)
  {
  }

  /** A branch or date version renders from its parsed head, stability,
      patch and metadata alone. */
  lemma {:induction false} BranchStringIgnoresNumbers(a: Version, b: Version)
    requires (a.isBranch || a.isDate) && (b.isBranch || b.isDate)
    requires a.parsed == b.parsed && a.stability == b.stability && a.patch == b.patch && a.metadata == b.metadata
    ensures ToString(a) == ToString(b)
  {
  }
}
