/**
  The order on dotted version strings (internal/cincinnati/client.go, compareVersions):
  parts parsed as 64-bit integers and subtracted.
 */
module VersionOrder {
  const TWO_TO_THE_63 := 0x8000_0000_0000_0000
  const TWO_TO_THE_64 := 0x1_0000_0000_0000_0000

  predicate InInt64(x: int) { -TWO_TO_THE_63 <= x < TWO_TO_THE_63 }

  /** 64-bit two's complement. */
  function Wrap(x: int): int {
    var r := x % TWO_TO_THE_64;
    if r < TWO_TO_THE_63 then r else r - TWO_TO_THE_64
  }

  /** strings.Split on a dot. */
  function Split(s: string): (parts: seq<string>)
    ensures parts != []
  {
    if s == "" then [""]
    else
      var rest := Split(s[1..]);
      if s[0] == '.' then [""] + rest else [[s[0]] + rest[0]] + rest[1..]
  }

  // strconv.Atoi, whose error is ignored: what matters is the value it returns.

  datatype Parsed = Value(value: nat) | NotANumber | TooLarge

  predicate IsDigit(c: char) { '0' <= c <= '9' }

  function DigitValue(c: char): nat
    requires IsDigit(c)
  {
    c as int - '0' as int
  }

  /** Digits are read from the left; overflow of an unsigned 64-bit number ends the reading. */
  function ReadDigits(s: string, n: nat): Parsed {
    if s == "" then Value(n)
    else if !IsDigit(s[0]) then NotANumber
    else if n * 10 + DigitValue(s[0]) >= TWO_TO_THE_64 then TooLarge
    else ReadDigits(s[1..], n * 10 + DigitValue(s[0]))
  }

  function Clamp(x: int): (r: int)
    ensures InInt64(r)
  {
    if x >= TWO_TO_THE_63 then TWO_TO_THE_63 - 1 else if x < -TWO_TO_THE_63 then -TWO_TO_THE_63 else x
  }

  function Atoi(s: string): (r: int)
    ensures InInt64(r)
  {
    if s == "" then 0
    else
      var negative := s[0] == '-';
      var digits := if negative || s[0] == '+' then s[1..] else s;
      if digits == "" then 0
      else
        match ReadDigits(digits, 0)
        case NotANumber => 0
        case TooLarge => Clamp(if negative then -TWO_TO_THE_64 else TWO_TO_THE_64)
        case Value(n) =>
          var m: int := n;
          Clamp(if negative then -m else m)
  }

  function Numbers(version: string): seq<int> {
    var parts := Split(version);
    seq(|parts|, i requires 0 <= i < |parts| => Atoi(parts[i]))
  }

  /** Missing parts count as zero. */
  function At(a: seq<int>, i: nat): int { if i < |a| then a[i] else 0 }

  function CompareFrom(a: seq<int>, b: seq<int>, i: nat): int
    decreases |a| + |b| - i
  {
    if i >= |a| && i >= |b| then 0
    else if At(a, i) != At(b, i) then Wrap(At(a, i) - At(b, i))
    else CompareFrom(a, b, i + 1)
  }

  function Compare(a: string, b: string): int { CompareFrom(Numbers(a), Numbers(b), 0) }

  method CompareVersions(a: string, b: string) returns (r: int)
    ensures r == Compare(a, b)
  {
    var aParts, bParts := Split(a), Split(b);
    var maxLen := if |aParts| > |bParts| then |aParts| else |bParts|;
    for i := 0 to maxLen
      invariant Compare(a, b) == CompareFrom(Numbers(a), Numbers(b), i)
    {
      var aVal, bVal := 0, 0;
      if i < |aParts| {
        aVal := Atoi(aParts[i]);
      }
      if i < |bParts| {
        bVal := Atoi(bParts[i]);
      }
      if aVal != bVal {
        return Wrap(aVal - bVal);
      }
    }
    r := 0;
  }

  // The order the strings are meant to have.

  ghost predicate AgreeBefore(a: seq<int>, b: seq<int>, i: nat) {
    forall j: nat :: j < i ==> At(a, j) == At(b, j)
  }

  ghost predicate LessAt(a: seq<int>, b: seq<int>, i: nat) { AgreeBefore(a, b, i) && At(a, i) < At(b, i) }

  /** Smaller at the first position where they differ. */
  ghost predicate Less(a: seq<int>, b: seq<int>) { exists i: nat :: LessAt(a, b, i) }

  ghost predicate Same(a: seq<int>, b: seq<int>) { forall i: nat :: At(a, i) == At(b, i) }

  /** The first difference, if any, is a 64-bit number in both directions. */
  ghost predicate NoOverflow(a: seq<int>, b: seq<int>) {
    forall i: nat :: AgreeBefore(a, b, i) ==> InInt64(At(a, i) - At(b, i)) && InInt64(At(b, i) - At(a, i))
  }

  ghost predicate AllInInt64(a: seq<int>) { forall i :: 0 <= i < |a| ==> InInt64(a[i]) }

  lemma WrapSign(x: int)
    requires -TWO_TO_THE_64 < x < TWO_TO_THE_64
    ensures Wrap(x) == 0 <==> x == 0
    ensures InInt64(x) ==> Wrap(x) == x
    ensures !InInt64(x) ==> (Wrap(x) < 0 <==> x > 0)
  {
  }

  lemma {:induction false} CompareFromMeaning(a: seq<int>, b: seq<int>, i: nat)
    requires AllInInt64(a) && AllInInt64(b) && AgreeBefore(a, b, i)
    ensures CompareFrom(a, b, i) == 0 ==> Same(a, b)
    ensures CompareFrom(a, b, i) != 0 ==>
              exists k: nat :: AgreeBefore(a, b, k) && At(a, k) != At(b, k)
                  && CompareFrom(a, b, i) == Wrap(At(a, k) - At(b, k))
    decreases |a| + |b| - i
  {
    if i >= |a| && i >= |b| {
    } else if At(a, i) != At(b, i) {
      WrapSign(At(a, i) - At(b, i));
    } else {
      assert AgreeBefore(a, b, i + 1);
      CompareFromMeaning(a, b, i + 1);
    }
  }

  lemma FirstDifferenceIsUnique(a: seq<int>, b: seq<int>, i: nat, k: nat)
    requires AgreeBefore(a, b, i) && At(a, i) != At(b, i) && AgreeBefore(a, b, k) && At(a, k) != At(b, k)
    ensures i == k
  {
  }

  lemma AtFirstDifference(a: seq<int>, b: seq<int>, k: nat)
    requires AllInInt64(a) && AllInInt64(b) && AgreeBefore(a, b, k) && At(a, k) != At(b, k)
    ensures CompareFrom(a, b, 0) == Wrap(At(a, k) - At(b, k))
    ensures Less(a, b) <==> At(a, k) < At(b, k)
  {
    CompareFromMeaning(a, b, 0);
    if CompareFrom(a, b, 0) != 0 {
      var i: nat :| AgreeBefore(a, b, i) && At(a, i) != At(b, i) && CompareFrom(a, b, 0) == Wrap(At(a, i) - At(b, i));
      FirstDifferenceIsUnique(a, b, k, i);
    }
    if Less(a, b) {
      var i: nat :| LessAt(a, b, i);
      FirstDifferenceIsUnique(a, b, k, i);
    }
    if At(a, k) < At(b, k) {
      assert LessAt(a, b, k);
    }
  }

  lemma OverflowAtFirstDifference(a: seq<int>, b: seq<int>, k: nat)
    requires AgreeBefore(a, b, k) && At(a, k) != At(b, k)
    ensures NoOverflow(a, b) <==> InInt64(At(a, k) - At(b, k)) && InInt64(At(b, k) - At(a, k))
  {
    forall i: nat | AgreeBefore(a, b, i) && At(a, i) != At(b, i)
      ensures i == k
    {
      FirstDifferenceIsUnique(a, b, k, i);
    }
  }

  lemma FirstDifferenceExists(a: seq<int>, b: seq<int>)
    requires AllInInt64(a) && AllInInt64(b) && !Same(a, b)
    ensures exists k: nat :: AgreeBefore(a, b, k) && At(a, k) != At(b, k)
  {
    CompareFromMeaning(a, b, 0);
  }

  lemma SameMeansZero(a: seq<int>, b: seq<int>)
    requires AllInInt64(a) && AllInInt64(b) && Same(a, b)
    ensures CompareFrom(a, b, 0) == 0 && !Less(a, b)
  {
    CompareFromMeaning(a, b, 0);
  }

  ghost predicate SignIsRightFor(a: seq<int>, b: seq<int>) { CompareFrom(a, b, 0) < 0 <==> Less(a, b) }

  lemma SignIsRightIffAt(a: seq<int>, b: seq<int>, k: nat)
    requires AllInInt64(a) && AllInInt64(b) && AgreeBefore(a, b, k) && At(a, k) != At(b, k)
    ensures CompareFrom(a, b, 0) != 0
    ensures SignIsRightFor(a, b) && SignIsRightFor(b, a)
       <==> InInt64(At(a, k) - At(b, k)) && InInt64(At(b, k) - At(a, k))
  {
    AtFirstDifference(a, b, k);
    AtFirstDifference(b, a, k);
    WrapSign(At(a, k) - At(b, k));
    WrapSign(At(b, k) - At(a, k));
  }

  /** The comparison is zero exactly on equal versions, and its sign is the order's in both
      directions if and only if the first difference does not overflow. */
  lemma SignIsRightIff(v: string, w: string)
    ensures var a, b := Numbers(v), Numbers(w);
            && (Compare(v, w) == 0 <==> Same(a, b))
            && ((Compare(v, w) < 0 <==> Less(a, b)) && (Compare(w, v) < 0 <==> Less(b, a)) <==> NoOverflow(a, b))
  {
    var a, b := Numbers(v), Numbers(w);
    if Same(a, b) {
      SameMeansZero(a, b);
      SameMeansZero(b, a);
      SameNeverOverflows(a, b);
    } else {
      FirstDifferenceExists(a, b);
      var k: nat :| AgreeBefore(a, b, k) && At(a, k) != At(b, k);
      SignIsRightIffAt(a, b, k);
      OverflowAtFirstDifference(a, b, k);
    }
  }

  lemma SameNeverOverflows(a: seq<int>, b: seq<int>)
    requires Same(a, b)
    ensures NoOverflow(a, b)
  {
  }

  // On parts that are not negative.

  ghost predicate NonNegative(a: seq<int>) { forall i :: 0 <= i < |a| ==> a[i] >= 0 }

  /** Differences of non-negative parts never overflow. */
  lemma NonNegativeNeverOverflows(a: seq<int>, b: seq<int>)
    requires AllInInt64(a) && AllInInt64(b) && NonNegative(a) && NonNegative(b)
    ensures NoOverflow(a, b)
  {
  }

  lemma LessIsTransitive(a: seq<int>, b: seq<int>, c: seq<int>)
    requires (Less(a, b) || Same(a, b)) && (Less(b, c) || Same(b, c))
    ensures Less(a, c) || (Same(a, c) && Same(a, b) && Same(b, c))
  {
    if Less(a, b) && Less(b, c) {
      var i: nat :| LessAt(a, b, i);
      var j: nat :| LessAt(b, c, j);
      assert LessAt(a, c, if i < j then i else j);
    } else if Less(a, b) {
      var i: nat :| LessAt(a, b, i);
      assert LessAt(a, c, i);
    } else if Less(b, c) {
      var j: nat :| LessAt(b, c, j);
      assert LessAt(a, c, j);
    }
  }

  /** On versions without negative parts the comparison is a total preorder: signs are
      antisymmetric, and being at most another version is transitive. */
  lemma TotalPreorder(u: string, v: string, w: string)
    requires NonNegative(Numbers(u)) && NonNegative(Numbers(v)) && NonNegative(Numbers(w))
    ensures Compare(u, v) < 0 <==> Compare(v, u) > 0
    ensures Compare(u, v) <= 0 && Compare(v, w) <= 0 ==> Compare(u, w) <= 0
  {
    var a, b, c := Numbers(u), Numbers(v), Numbers(w);
    SignIsRight(u, v);
    SignIsRight(v, w);
    SignIsRight(u, w);
    if Compare(u, v) <= 0 && Compare(v, w) <= 0 {
      LessIsTransitive(a, b, c);
    }
  }

  lemma SignIsRight(v: string, w: string)
    requires NoOverflow(Numbers(v), Numbers(w)) || (NonNegative(Numbers(v)) && NonNegative(Numbers(w)))
    ensures Compare(v, w) < 0 <==> Less(Numbers(v), Numbers(w))
    ensures Compare(v, w) > 0 <==> Less(Numbers(w), Numbers(v))
    ensures Compare(w, v) < 0 <==> Less(Numbers(w), Numbers(v))
    ensures Compare(w, v) > 0 <==> Less(Numbers(v), Numbers(w))
    ensures Compare(v, w) == 0 <==> Same(Numbers(v), Numbers(w))
  {
    var a, b := Numbers(v), Numbers(w);
    if !NoOverflow(a, b) {
      NonNegativeNeverOverflows(a, b);
    }
    SignIsRightIff(v, w);
    SignIsRightIff(w, v);
    if !Same(a, b) {
      FirstDifferenceExists(a, b);
      var k: nat :| AgreeBefore(a, b, k) && At(a, k) != At(b, k);
      AtFirstDifference(a, b, k);
      AtFirstDifference(b, a, k);
    }
  }

  /** Without trailing zero parts. */
  function Trim(a: seq<int>): seq<int> {
    if a != [] && a[|a| - 1] == 0 then Trim(a[..|a| - 1]) else a
  }

  lemma {:induction false} TrimIsSame(a: seq<int>)
    ensures Same(a, Trim(a)) && |Trim(a)| <= |a| && (Trim(a) != [] ==> Trim(a)[|Trim(a)| - 1] != 0)
  {
    if a != [] && a[|a| - 1] == 0 {
      TrimIsSame(a[..|a| - 1]);
      assert Same(a, a[..|a| - 1]);
    }
  }

  /** Versions compare equal exactly if they have the same parts up to trailing zeros. */
  lemma ZeroIffEqualUpToTrailingZeros(v: string, w: string)
    ensures Compare(v, w) == 0 <==> Trim(Numbers(v)) == Trim(Numbers(w))
  {
    var a, b := Numbers(v), Numbers(w);
    SignIsRightIff(v, w);
    TrimIsSame(a);
    TrimIsSame(b);
    var s, t := Trim(a), Trim(b);
    if Same(a, b) {
      assert Same(s, t);
      assert |s| > |t| ==> At(s, |s| - 1) == At(t, |s| - 1);
      assert |t| > |s| ==> At(s, |t| - 1) == At(t, |t| - 1);
      assert |s| == |t|;
      forall i | 0 <= i < |s|
        ensures s[i] == t[i]
      {
        assert At(s, i) == At(t, i);
      }
    }
  }

  // Decimal numbers.

  function Digit(d: nat): (c: char)
    requires d < 10
    ensures IsDigit(c) && DigitValue(c) == d
  {
    '0' + d as char
  }

  function Decimal(n: nat): (s: string)
    ensures s != "" && forall i :: 0 <= i < |s| ==> IsDigit(s[i])
  {
    if n < 10 then [Digit(n)] else Decimal(n / 10) + [Digit(n % 10)]
  }

  lemma {:induction false} ReadDecimal(n: nat, rest: string)
    requires n < TWO_TO_THE_64
    ensures ReadDigits(Decimal(n) + rest, 0) == ReadDigits(rest, n)
  {
    if n < 10 {
      assert (Decimal(n) + rest)[1..] == rest;
    } else {
      var d := [Digit(n % 10)];
      ReadDecimal(n / 10, d + rest);
      assert Decimal(n) + rest == Decimal(n / 10) + (d + rest);
      assert (d + rest)[1..] == rest;
    }
  }

  lemma AtoiDecimal(n: nat)
    requires n < TWO_TO_THE_64
    ensures Atoi(Decimal(n)) == Clamp(n)
    ensures Atoi("-" + Decimal(n)) == Clamp(0 - n as int)
  {
    ReadDecimal(n, "");
    assert Decimal(n) + "" == Decimal(n);
    assert ("-" + Decimal(n))[1..] == Decimal(n);
  }

  lemma OneNumber(version: string, n: int)
    requires '.' !in version && Atoi(version) == n
    ensures Numbers(version) == [n]
  {
    NoDots(version);
  }

  lemma LeastAgainstZero(v: string, w: string)
    requires '.' !in v && '.' !in w && Atoi(v) == -TWO_TO_THE_63 && Atoi(w) == 0
    ensures Compare(v, w) < 0 && Compare(w, v) < 0
  {
    OneNumber(v, -TWO_TO_THE_63);
    OneNumber(w, 0);
    var a, b := [-TWO_TO_THE_63], [0];
    assert At(a, 0) == -TWO_TO_THE_63 && At(b, 0) == 0;
    AtFirstDifference(a, b, 0);
    AtFirstDifference(b, a, 0);
  }

  /** Negative parts break antisymmetry: each of these two versions compares below the other. */
  lemma NegativePartsCanOverflow(least: nat)
    requires least == TWO_TO_THE_63
    ensures Compare("-" + Decimal(least), "0") < 0 && Compare("0", "-" + Decimal(least)) < 0
  {
    AtoiDecimal(least);
    LeastAgainstZero("-" + Decimal(least), "0");
  }

  lemma {:induction false} NoDots(s: string)
    requires '.' !in s
    ensures Split(s) == [s]
  {
    if s != "" {
      NoDots(s[1..]);
      assert [s[0]] + s[1..] == s;
    }
  }

  lemma {:induction false} SplitAtDot(s: string, rest: string)
    requires '.' !in s
    ensures Split(s + ("." + rest)) == [s] + Split(rest)
  {
    var t := s + ("." + rest);
    if s == "" {
      assert t[1..] == rest;
    } else {
      SplitAtDot(s[1..], rest);
      assert t[1..] == s[1..] + ("." + rest);
      assert [s[0]] + s[1..] == s;
    }
  }

  // Section 11 of SemVer 2.0.0, on versions that are major.minor.patch alone.

  datatype SemVer = SemVer(major: nat, minor: nat, patch: nat)

  function SemVerText(x: SemVer): string { Decimal(x.major) + ("." + (Decimal(x.minor) + ("." + Decimal(x.patch)))) }

  predicate Precedes(x: SemVer, y: SemVer) {
    || x.major < y.major
    || (x.major == y.major && x.minor < y.minor)
    || (x.major == y.major && x.minor == y.minor && x.patch < y.patch)
  }

  predicate SemVerInInt64(x: SemVer) { InInt64(x.major) && InInt64(x.minor) && InInt64(x.patch) }

  lemma SemVerNumbers(x: SemVer)
    requires SemVerInInt64(x)
    ensures Numbers(SemVerText(x)) == [x.major, x.minor, x.patch]
  {
    SplitAtDot(Decimal(x.major), Decimal(x.minor) + ("." + Decimal(x.patch)));
    SplitAtDot(Decimal(x.minor), Decimal(x.patch));
    NoDots(Decimal(x.patch));
    AtoiDecimal(x.major);
    AtoiDecimal(x.minor);
    AtoiDecimal(x.patch);
  }

  lemma AgreesWithSemVer(x: SemVer, y: SemVer)
    requires SemVerInInt64(x) && SemVerInInt64(y)
    ensures Compare(SemVerText(x), SemVerText(y)) < 0 <==> Precedes(x, y)
    ensures Compare(SemVerText(x), SemVerText(y)) > 0 <==> Precedes(y, x)
    ensures Compare(SemVerText(x), SemVerText(y)) == 0 <==> x == y
  {
    SemVerNumbers(x);
    SemVerNumbers(y);
    var a, b := [x.major, x.minor, x.patch], [y.major, y.minor, y.patch];
    SignIsRight(SemVerText(x), SemVerText(y));
    if x != y {
      var k := if x.major != y.major then 0 else if x.minor != y.minor then 1 else 2;
      AtFirstDifference(a, b, k);
      AtFirstDifference(b, a, k);
    }
  }
}
