/**
  Versions with pre-release identifiers, such as 4.16.0-rc.1, under the order of
  internal/cincinnati/client.go: exactly when it agrees with section 11 of SemVer 2.0.0,
  by which a pre-release comes before its release.
 */
module PreReleases {
  import opened Wrappers
  import opened VersionOrder
  import opened Cincinnati

  function DotJoin(ids: seq<string>): string
    requires ids != []
  {
    if |ids| == 1 then ids[0] else ids[0] + ("." + DotJoin(ids[1..]))
  }

  /** The identifiers of a pre-release: at least one, none with a dot. */
  predicate Identifiers(ids: seq<string>) {
    ids != [] && forall i :: 0 <= i < |ids| ==> '.' !in ids[i]
  }

  function PreReleaseText(x: SemVer, ids: seq<string>): string
    requires Identifiers(ids)
  {
    Decimal(x.major) + ("." + (Decimal(x.minor) + ("." + (Decimal(x.patch) + "-" + DotJoin(ids)))))
  }

  /** What the code makes of the identifiers but the first. */
  function Rest(ids: seq<string>): seq<int>
    requires ids != []
  {
    seq(|ids| - 1, i requires 0 <= i < |ids| - 1 => Atoi(ids[i + 1]))
  }

  lemma Associative(a: string, b: string, c: string)
    ensures a + (b + c) == (a + b) + c
  {
  }

  lemma {:induction false} SplitJoined(ids: seq<string>)
    requires Identifiers(ids)
    ensures Split(DotJoin(ids)) == ids
    decreases |ids|
  {
    if |ids| == 1 {
      NoDots(ids[0]);
    } else {
      SplitJoined(ids[1..]);
      SplitAtDot(ids[0], DotJoin(ids[1..]));
    }
  }

  lemma SplitIdentifiers(first: string, ids: seq<string>)
    requires Identifiers(ids) && '.' !in first
    ensures Split(first + DotJoin(ids)) == [first + ids[0]] + ids[1..]
  {
    if |ids| == 1 {
      NoDots(first + ids[0]);
    } else {
      var rest := DotJoin(ids[1..]);
      SplitJoined(ids[1..]);
      SplitAtDot(first + ids[0], rest);
      Associative(first, ids[0], "." + rest);
    }
  }

  /** The hyphen ends the reading of the patch number, which then counts as zero. */
  lemma PatchIsLost(patch: nat, id: string)
    requires InInt64(patch)
    ensures Atoi(Decimal(patch) + "-" + id) == 0
  {
    ReadDecimal(patch, "-" + id);
    assert Decimal(patch) + "-" + id == Decimal(patch) + ("-" + id);
  }

  lemma PreReleaseParts(x: SemVer, ids: seq<string>)
    requires Identifiers(ids)
    ensures Split(PreReleaseText(x, ids))
         == [Decimal(x.major), Decimal(x.minor), Decimal(x.patch) + "-" + ids[0]] + ids[1..]
  {
    var patch := Decimal(x.patch) + "-";
    var last := patch + DotJoin(ids);
    SplitIdentifiers(patch, ids);
    SplitAtDot(Decimal(x.minor), last);
    SplitAtDot(Decimal(x.major), Decimal(x.minor) + ("." + last));
  }

  lemma PreReleaseNumbers(x: SemVer, ids: seq<string>)
    requires SemVerInInt64(x) && Identifiers(ids)
    ensures Numbers(PreReleaseText(x, ids)) == [x.major, x.minor, 0] + Rest(ids)
  {
    PreReleaseParts(x, ids);
    AtoiDecimal(x.major);
    AtoiDecimal(x.minor);
    PatchIsLost(x.patch, ids[0]);
    var parts := Split(PreReleaseText(x, ids));
    forall i | 3 <= i < |parts|
      ensures parts[i] == ids[i - 2]
    {
    }
    assert |parts| == |ids| + 2;
  }

  /** Zero if all are, else the sign of the first that is not. */
  function Sign(a: seq<int>): int {
    if a == [] then 0 else if a[0] < 0 then -1 else if a[0] > 0 then 1 else Sign(a[1..])
  }

  lemma {:induction false} SignIsComparison(a: seq<int>, b: seq<int>, i: nat)
    requires AllInInt64(a) && |b| <= i <= |a|
    ensures CompareFrom(a, b, i) < 0 <==> Sign(a[i..]) < 0
    ensures CompareFrom(a, b, i) > 0 <==> Sign(a[i..]) > 0
    decreases |a| - i
  {
    if i < |a| {
      WrapSign(a[i]);
      assert a[i..][1..] == a[i + 1..];
      SignIsComparison(a, b, i + 1);
    }
  }

  /** By section 11 a pre-release of `x` comes before the release `y` exactly if `x` is not
      above `y`. */
  predicate ComesBefore(x: SemVer, y: SemVer) { !Precedes(y, x) }

  /** The comparison's sign for the pre-release against the release is section 11's. */
  predicate Agrees(x: SemVer, ids: seq<string>, y: SemVer)
    requires Identifiers(ids)
  {
    var c := Compare(PreReleaseText(x, ids), SemVerText(y));
    if ComesBefore(x, y) then c < 0 else c > 0
  }

  /** Right if major and minor decide. Otherwise the pre-release's patch counts as zero: that
      is still right against a later patch, and against patch zero it is left to how the
      further identifiers read as numbers. */
  predicate Rightly(x: SemVer, ids: seq<string>, y: SemVer)
    requires ids != []
  {
    || x.major != y.major || x.minor != y.minor
    || if y.patch > 0 then x.patch <= y.patch else if x.patch == 0 then Sign(Rest(ids)) < 0 else Sign(Rest(ids)) > 0
  }

  lemma PreReleaseAgreesIff(x: SemVer, ids: seq<string>, y: SemVer)
    requires SemVerInInt64(x) && SemVerInInt64(y) && Identifiers(ids)
    ensures Agrees(x, ids, y) <==> Rightly(x, ids, y)
  {
    PreReleaseNumbers(x, ids);
    SemVerNumbers(y);
    var a, b := [x.major, x.minor, 0] + Rest(ids), [y.major, y.minor, y.patch];
    if x.major != y.major {
      AtFirstDifference(a, b, 0);
      WrapSign(x.major - y.major);
    } else if x.minor != y.minor {
      AtFirstDifference(a, b, 1);
      WrapSign(x.minor - y.minor);
    } else if y.patch > 0 {
      AtFirstDifference(a, b, 2);
      WrapSign(0 - y.patch);
    } else {
      assert CompareFrom(a, b, 0) == CompareFrom(a, b, 1) == CompareFrom(a, b, 2) == CompareFrom(a, b, 3);
      SignIsComparison(a, b, 3);
      assert a[3..] == Rest(ids);
    }
  }

  /** In particular a numbered pre-release of a .0 release ranks above it, where section 11
      puts it below. */
  lemma CandidateRanksAboveItsRelease(x: SemVer, name: string, number: nat)
    requires SemVerInInt64(x) && x.patch == 0 && '.' !in name && 0 < number && InInt64(number)
    ensures Identifiers([name, Decimal(number)])
    ensures ComesBefore(x, x) && Compare(PreReleaseText(x, [name, Decimal(number)]), SemVerText(x)) > 0
  {
    var ids := [name, Decimal(number)];
    AtoiDecimal(number);
    assert Rest(ids) == [number];
    assert Sign([number]) == 1;
    PreReleaseNumbers(x, ids);
    SemVerNumbers(x);
    var a, b := [x.major, x.minor, 0] + Rest(ids), [x.major, x.minor, x.patch];
    AtFirstDifference(a, b, 3);
    WrapSign(number);
  }

  /** So a graph that lists such a pre-release beside its release resolves to the pre-release. */
  lemma CandidateIsChosen(x: SemVer, name: string, number: nat, version: string, release: Node, candidate: Node)
    requires SemVerInInt64(x) && x.patch == 0 && '.' !in name && 0 < number && InInt64(number)
    requires Identifiers([name, Decimal(number)])
    requires release.version == SemVerText(x) && candidate.version == PreReleaseText(x, [name, Decimal(number)])
    requires Matches(release, version) && Matches(candidate, version)
    ensures Best([release, candidate], version) == Some(candidate)
  {
    CandidateRanksAboveItsRelease(x, name, number);
    assert [release, candidate][..1] == [release] && [release][..0] == [];
    assert Best([release], version) == Better(Best([], version), release, version) == Some(release);
  }
}
