/**
 * functions/deploy.js:16-18: before deploying, the script raises the patch
 * number of the version in package.json.  The version is cut at dots, the
 * third piece is replaced by `parseInt(piece, 10) + 1` and the pieces are
 * joined again.  Reading and writing the file and running the deploy are not
 * modelled.
 */
module Deploy {
  import opened Wrappers
  import opened JsText

  /** `parseInt(parts[2], 10) + 1` printed: "NaN" when the piece is missing or has no leading number. */
  function NextPatch(parts: seq<string>): (r: string)
    ensures '.' !in r
  {
    var patch := if |parts| > 2 then ParseInt(parts[2]) else None;
    match patch
    case Some(n) => NoDotInNumber(n + 1); IntToString(n + 1)
    case None => "NaN"
  }

  lemma {:induction false} NoDotInNumber(n: int)
    ensures '.' !in IntToString(n)
  {
    var m: nat := if n < 0 then -n else n;
    assert forall i :: 0 <= i < |NatToString(m)| ==> IsDigit(NatToString(m)[i]);
    if n < 0 {
      assert IntToString(n) == "-" + NatToString(m);
    }
  }

  /**
   * The pieces after `versionParts[2] = ...`: assigning past the end of a
   * shorter array leaves a hole, which `join` prints as "".
   */
  function WithPatch(parts: seq<string>): (r: seq<string>)
    ensures |r| == if |parts| < 3 then 3 else |parts|
  {
    var padded := if |parts| < 3 then parts + seq(3 - |parts|, _ => "") else parts;
    padded[2 := NextPatch(parts)]
  }

  /** The new `packageJson.version`. */
  function BumpedVersion(version: string): string {
    Join(WithPatch(Split(version, '.')), '.')
  }

  /** A piece-wise reading of the new version: it splits back into the pieces `WithPatch` made. */
  lemma {:induction false} BumpedPieces(version: string)
    ensures Split(BumpedVersion(version), '.') == WithPatch(Split(version, '.'))
  {
    var parts := Split(version, '.');
    var pieces := WithPatch(parts);
    forall i | 0 <= i < |pieces|
      ensures '.' !in pieces[i]
    {
      if i != 2 && i < |parts| {
        assert pieces[i] == parts[i];
      }
    }
    SplitJoin(pieces, '.');
  }

  /** With three or more pieces only the third changes, and the count stays. */
  lemma {:induction false} OnlyPatchChanges(version: string)
    requires |Split(version, '.')| >= 3
    ensures var before, after := Split(version, '.'), Split(BumpedVersion(version), '.');
      |after| == |before| && forall i :: 0 <= i < |before| && i != 2 ==> after[i] == before[i]
  {
    BumpedPieces(version);
  }

  /** A patch that reads as the number n becomes the decimal text of n + 1. */
  lemma {:induction false} NumericPatch(version: string)
    requires |Split(version, '.')| >= 3 && ParseInt(Split(version, '.')[2]).Some?
    ensures var after := Split(BumpedVersion(version), '.');
      |after| >= 3 && after[2] == IntToString(ParseInt(Split(version, '.')[2]).value + 1)
  {
    BumpedPieces(version);
  }

  /** A patch with no leading number becomes "NaN". */
  lemma {:induction false} NaNPatch(version: string)
    requires |Split(version, '.')| >= 3 && ParseInt(Split(version, '.')[2]).None?
    ensures var after := Split(BumpedVersion(version), '.');
      |after| >= 3 && after[2] == "NaN"
  {
    BumpedPieces(version);
  }

  /** With fewer than three pieces the version grows to three: "1" becomes "1..NaN" and "1.2" becomes "1.2.NaN". */
  lemma {:induction false} ShortVersion(version: string)
    requires |Split(version, '.')| < 3
    ensures var parts := Split(version, '.');
      Split(BumpedVersion(version), '.') == parts + (if |parts| == 1 then [""] else []) + ["NaN"]
  {
    BumpedPieces(version);
  }

  /**
   * Only the leading number of the patch counts: "a.b.2-beta" becomes
   * "a.b.3", the suffix going with the old number.
   */
  lemma {:induction false} SuffixDropped(a: string, b: string, n: int, suffix: string)
    requires '.' !in a && '.' !in b && '.' !in suffix
    requires suffix == [] || !IsDigit(suffix[0])
    ensures BumpedVersion(a + "." + b + "." + (IntToString(n) + suffix)) == a + "." + b + "." + IntToString(n + 1)
  {
    var patch := IntToString(n) + suffix;
    NoDotInNumber(n);
    NoDotInNumber(n + 1);
    assert '.' !in patch;
    var parts := [a, b, patch];
    JoinThree(a, b, patch);
    SplitJoin(parts, '.');
    ParseIntOfIntToString(n, suffix);
    var next := [a, b, IntToString(n + 1)];
    assert WithPatch(parts) == next;
    JoinThree(a, b, IntToString(n + 1));
  }

  lemma {:induction false} JoinThree(a: string, b: string, c: string)
    ensures Join([a, b, c], '.') == a + "." + b + "." + c
  {
    var parts := [a, b, c];
    assert parts[1..] == [b, c] && parts[1..][1..] == [c];
    assert Join([b, c], '.') == b + "." + c;
    assert Join(parts, '.') == a + "." + (b + "." + c);
  }

  /** `packageJson`, of which the script changes only `version`. */
  class PackageManifest {
    var version: string

    constructor(version: string)
      ensures this.version == version
    {
      this.version := version;
    }

    /** functions/deploy.js:16-18. */
    method BumpPatch()
      modifies this
      ensures version == BumpedVersion(old(version))
    {
      var versionParts := Split(version, '.');
      ghost var parts := versionParts;
      var patch := if |versionParts| > 2 then ParseInt(versionParts[2]) else None;
      var next := if patch.Some? then IntToString(patch.value + 1) else "NaN";
      assert next == NextPatch(parts);
      if |versionParts| < 3 {
        versionParts := versionParts + seq(3 - |versionParts|, _ => "");
      }
      versionParts := versionParts[2 := next];
      assert versionParts == WithPatch(parts);
      version := Join(versionParts, '.');
    }
  }
}
