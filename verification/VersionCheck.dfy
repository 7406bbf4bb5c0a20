/** The verdict of `find_package_check_version`: a version range, an exact version decided by
    truncating the version text, or a minimum version. */
module VersionCheck {
  import opened Options
  import opened Versions

  /** `<package>_FIND_VERSION_RANGE` and its four companion variables. */
  datatype Range = Range(min: string, max: string, minKind: string, maxKind: string)

  /** What find_package() was asked for.  `count` is `<package>_FIND_VERSION_COUNT`. */
  datatype Request = Request(version: Option<string>, count: nat, exact: bool, range: Option<Range>)

  /** What find_package() guarantees about the variables it sets. */
  ghost predicate WellFormed(r: Request) {
    && (r.version.Some? ==> IsDotted(r.version.value) && r.count == |Pieces(r.version.value)| && 1 <= r.count <= 4)
    && (r.range.Some? ==> IsDotted(r.range.value.min) && IsDotted(r.range.value.max))
  }

  // ---------- The numeric meaning of the three branches ----------

  ghost predicate InRange(v: Version, min: Version, max: Version, minKind: string, maxKind: string) {
    && minKind == "INCLUDE" && !Precedes(v, min)
    && (maxKind == "INCLUDE" || maxKind == "EXCLUDE")
    && (if maxKind == "INCLUDE" then !Precedes(max, v) else Precedes(v, max))
  }

  /** The first `count` numbers agree, missing ones counting as zero. */
  ghost predicate AgreeUpTo(v: Version, wanted: Version, count: nat) {
    forall i: nat :: i < count ==> At(v, i) == At(wanted, i)
  }

  ghost predicate Acceptable(version: string, r: Request, handleRange: bool)
    requires IsDotted(version) && WellFormed(r)
  {
    var v := Numbers(version);
    if handleRange && r.range.Some? then
      var range := r.range.value;
      InRange(v, Numbers(range.min), Numbers(range.max), range.minKind, range.maxKind)
    else if r.version.None? then true
    else if r.exact then AgreeUpTo(v, Numbers(r.version.value), r.count)
    else !Precedes(v, Numbers(r.version.value))
  }

  // ---------- Truncation of the version text ----------

  /** The group matched by `^(R)\..*`, where R is `k` dot-free runs joined by dots. */
  function MatchHead(k: nat, s: string): (head: Option<string>)
    requires k >= 1
    ensures head.None? <==> Dots(s) < k
    ensures head.Some? ==> Dots(head.value) == k - 1 && |head.value| < |s|
                           && s == head.value + "." + s[|head.value| + 1..]
  {
    if s == "" then None
    else if s[0] == '.' then
      if k == 1 then Some("")
      else
        var rest := MatchHead(k - 1, s[1..]);
        if rest.None? then None else Some(['.'] + rest.value)
    else
      var rest := MatchHead(k, s[1..]);
      if rest.None? then None else Some([s[0]] + rest.value)
  }

  /** No other text fits the pattern: the group is determined by the number of dots. */
  lemma {:induction false} HeadIsUnique(a: string, b: string, restA: string, restB: string)
    requires a + "." + restA == b + "." + restB && Dots(a) == Dots(b)
    ensures a == b
    decreases |a|
  {
    var s := a + "." + restA;
    assert s[0] == (b + "." + restB)[0];
    if a != "" && b != "" {
      assert s[0] == a[0] == b[0];
      assert s[1..] == a[1..] + "." + restA == b[1..] + "." + restB;
      HeadIsUnique(a[1..], b[1..], restA, restB);
      assert a == [a[0]] + a[1..] && b == [b[0]] + b[1..];
    }
  }

  /** The truncated text consists of the first `k` components. */
  lemma HeadPieces(k: nat, s: string)
    requires 1 <= k && k <= Dots(s)
    ensures k <= |Pieces(s)| && Pieces(MatchHead(k, s).value) == Pieces(s)[..k]
  {
    var head := MatchHead(k, s).value;
    var rest := s[|head| + 1..];
    DotsCountPieces(s);
    DotsCountPieces(head);
    PiecesOfJoin(head, rest);
  }

  lemma HeadNumbers(k: nat, s: string)
    requires 1 <= k && k <= Dots(s) && IsDotted(s)
    ensures IsDotted(MatchHead(k, s).value) && k <= |Numbers(s)|
    ensures Numbers(MatchHead(k, s).value) == Numbers(s)[..k]
  {
    HeadPieces(k, s);
    assert Numbers(MatchHead(k, s).value) == Numbers(s)[..k];
  }

  lemma AgreeMeansSame(v: Version, wanted: Version, k: nat)
    requires |wanted| == k
    ensures Same(wanted, if k < |v| then v[..k] else v) <==> AgreeUpTo(v, wanted, k)
  {
    var head := if k < |v| then v[..k] else v;
    forall i: nat
      ensures i < k ==> At(head, i) == At(v, i)
      ensures i >= k ==> At(wanted, i) == At(head, i) || |v| <= k
    {
    }
    if |v| <= k {
      forall i: nat ensures i >= k ==> At(v, i) == 0 {}
    }
  }

  /** The next version of the same length. */
  function Bump(v: Version): Version
    requires v != []
  {
    v[|v| - 1 := v[|v| - 1] + 1]
  }

  /** EXACT accepts the half-open interval from the request to its successor. */
  lemma ExactIsInterval(v: Version, wanted: Version)
    requires wanted != []
    ensures AgreeUpTo(v, wanted, |wanted|) <==> !Precedes(v, wanted) && Precedes(v, Bump(wanted))
  {
    var k := |wanted|;
    var next := Bump(wanted);
    if AgreeUpTo(v, wanted, k) {
      assert PrecedesAt(v, next, k - 1);
      forall i: nat
        ensures !PrecedesAt(v, wanted, i)
      {
        assert i >= k ==> At(wanted, i) == 0;
      }
    }
    if !Precedes(v, wanted) && Precedes(v, next) {
      var i: nat :| PrecedesAt(v, next, i);
      forall j: nat ensures j < k - 1 ==> At(next, j) == At(wanted, j) {}
      if i < k - 1 {
        assert PrecedesAt(v, wanted, i);
      } else if i == k - 1 {
        if At(v, i) < At(wanted, i) {
          assert PrecedesAt(v, wanted, i);
        }
      }
    }
  }

  // ---------- The check itself ----------

  /** Which branch decides, and what it asks of the order of versions. */
  lemma AcceptableBranches(version: string, r: Request, handleRange: bool)
    requires IsDotted(version) && WellFormed(r)
    ensures handleRange && r.range.Some? ==>
      (Acceptable(version, r, handleRange) <==>
         && r.range.value.minKind == "INCLUDE" && !Precedes(Numbers(version), Numbers(r.range.value.min))
         && (|| (r.range.value.maxKind == "INCLUDE" && !Precedes(Numbers(r.range.value.max), Numbers(version)))
             || (r.range.value.maxKind == "EXCLUDE" && Precedes(Numbers(version), Numbers(r.range.value.max)))))
    ensures !(handleRange && r.range.Some?) && r.version.Some? && r.exact ==>
      (Acceptable(version, r, handleRange) <==>
         && !Precedes(Numbers(version), Numbers(r.version.value))
         && Precedes(Numbers(version), Bump(Numbers(r.version.value))))
    ensures !(handleRange && r.range.Some?) && r.version.Some? && !r.exact ==>
      (Acceptable(version, r, handleRange) <==> !Precedes(Numbers(version), Numbers(r.version.value)))
    ensures !(handleRange && r.range.Some?) && r.version.None? ==> Acceptable(version, r, handleRange)
  {
    if r.version.Some? {
      ExactIsInterval(Numbers(version), Numbers(r.version.value));
    }
  }

  /** A minimum accepts what the exact request accepts and everything above it. */
  lemma MinimumIsExactOrAbove(version: string, r: Request, handleRange: bool)
    requires IsDotted(version) && WellFormed(r)
    requires r.version.Some? && !r.exact && !(handleRange && r.range.Some?)
    ensures Acceptable(version, r, handleRange)
            <==> Acceptable(version, r.(exact := true), handleRange)
                 || Precedes(Numbers(r.version.value), Numbers(version))
  {
    var v, wanted := Numbers(version), Numbers(r.version.value);
    PrecedesTotal(v, wanted);
    ExactIsInterval(v, wanted);
    if Same(v, wanted) {
      assert AgreeUpTo(v, wanted, r.count);
    }
  }

  /** Where ranges are not handled, a range counts as the request that goes with it, its lower end. */
  lemma UnhandledRange(version: string, r: Request)
    requires IsDotted(version) && WellFormed(r)
    ensures Acceptable(version, r, false) <==> Acceptable(version, r.(range := None), true)
  {
  }

  method FindPackageCheckVersion(version: string, r: Request, handleRange: bool) returns (versionOk: bool)
    requires IsDotted(version) && WellFormed(r)
    ensures versionOk <==> Acceptable(version, r, handleRange)
    ensures handleRange && r.range.Some? ==>
      (versionOk <==>
         && r.range.value.minKind == "INCLUDE" && !Precedes(Numbers(version), Numbers(r.range.value.min))
         && (|| (r.range.value.maxKind == "INCLUDE" && !Precedes(Numbers(r.range.value.max), Numbers(version)))
             || (r.range.value.maxKind == "EXCLUDE" && Precedes(Numbers(version), Numbers(r.range.value.max)))))
    ensures !(handleRange && r.range.Some?) && r.version.Some? && r.exact ==>
      (versionOk <==>
         && !Precedes(Numbers(version), Numbers(r.version.value))
         && Precedes(Numbers(version), Bump(Numbers(r.version.value))))
    ensures !(handleRange && r.range.Some?) && r.version.Some? && !r.exact ==>
      (versionOk <==> !Precedes(Numbers(version), Numbers(r.version.value)))
    ensures !(handleRange && r.range.Some?) && r.version.None? ==> versionOk
  {
    AcceptableBranches(version, r, handleRange);
    versionOk := false;
    var v := Numbers(version);
    if handleRange && r.range.Some? {
      var range := r.range.value;
      var min, max := Numbers(range.min), Numbers(range.max);
      CompareMeaning(v, min);
      CompareMeaning(v, max);
      if && range.minKind == "INCLUDE" && Compare(v, min) != Less
         && (|| (range.maxKind == "INCLUDE" && Compare(v, max) != Greater)
             || (range.maxKind == "EXCLUDE" && Compare(v, max) == Less)) {
        versionOk := true;
      }
    } else if r.version.Some? {
      var wanted := Numbers(r.version.value);
      if r.exact {
        DotsCountPieces(version);
        AgreeMeansSame(v, wanted, r.count);
        if Dots(version) + 1 > r.count {
          var k := if r.count == 1 then 1 else if r.count == 2 then 2 else if r.count == 3 then 3 else 4;
          HeadNumbers(k, version);
          var versionHead := MatchHead(k, version).value;
          CompareMeaning(wanted, Numbers(versionHead));
          versionOk := Compare(wanted, Numbers(versionHead)) == Equal;
        } else {
          CompareMeaning(wanted, v);
          versionOk := Compare(wanted, v) == Equal;
        }
      } else {
        CompareMeaning(wanted, v);
        versionOk := Compare(wanted, v) != Greater;
      }
    } else {
      versionOk := true;
    }
  }

  // ---------- What the verdicts mean ----------

  /** What EXACT accepts, the minimum-version branch accepts too. */
  lemma ExactImpliesMinimum(version: string, r: Request, handleRange: bool)
    requires IsDotted(version) && WellFormed(r) && r.version.Some?
    requires r.exact && !(handleRange && r.range.Some?)
    requires Acceptable(version, r, handleRange)
    ensures Acceptable(version, r.(exact := false), handleRange)
  {
    ExactIsInterval(Numbers(version), Numbers(r.version.value));
  }

  /** A version range accepts an interval: what lies between accepted versions is accepted. */
  lemma RangeIsConvex(u: Version, v: Version, w: Version, min: Version, max: Version, minKind: string, maxKind: string)
    requires InRange(u, min, max, minKind, maxKind) && InRange(w, min, max, minKind, maxKind)
    requires !Precedes(v, u) && !Precedes(w, v)
    ensures InRange(v, min, max, minKind, maxKind)
  {
    PrecedesWeakTransitive(min, u, v);
    if maxKind == "INCLUDE" {
      PrecedesWeakTransitive(v, w, max);
    } else {
      PrecedesTotal(v, w);
      if Precedes(v, w) {
        PrecedesTransitive(v, w, max);
      } else {
        PrecedesRespectsSame(w, max, v, max);
      }
    }
  }

  /** No branch distinguishes versions that differ only in trailing zeros. */
  lemma VerdictIgnoresTrailingZeros(a: string, b: string, r: Request, handleRange: bool)
    requires IsDotted(a) && IsDotted(b) && WellFormed(r)
    requires Same(Numbers(a), Numbers(b)) && Acceptable(a, r, handleRange)
    ensures Acceptable(b, r, handleRange)
  {
    var u, v := Numbers(a), Numbers(b);
    forall x: Version
      ensures Precedes(u, x) <==> Precedes(v, x)
      ensures Precedes(x, u) <==> Precedes(x, v)
    {
      if Precedes(u, x) { PrecedesRespectsSame(u, x, v, x); }
      if Precedes(v, x) { PrecedesRespectsSame(v, x, u, x); }
      if Precedes(x, u) { PrecedesRespectsSame(x, u, x, v); }
      if Precedes(x, v) { PrecedesRespectsSame(x, v, x, u); }
    }
  }

  /** A range accepts something exactly when its ends are in order. */
  lemma RangeInhabited(min: Version, max: Version, minKind: string, maxKind: string)
    requires minKind == "INCLUDE" && (maxKind == "INCLUDE" || maxKind == "EXCLUDE")
    ensures (exists v :: InRange(v, min, max, minKind, maxKind))
            <==> Precedes(min, max) || (maxKind == "INCLUDE" && Same(min, max))
  {
    PrecedesTotal(min, max);
    PrecedesTotal(min, min);
    if v :| InRange(v, min, max, minKind, maxKind) {
      if maxKind == "INCLUDE" {
        PrecedesWeakTransitive(min, v, max);
      } else {
        PrecedesTotal(min, v);
        if Precedes(min, v) {
          PrecedesTransitive(min, v, max);
        } else {
          PrecedesRespectsSame(v, max, min, max);
        }
      }
    }
    if Precedes(min, max) || (maxKind == "INCLUDE" && Same(min, max)) {
      assert InRange(min, min, max, minKind, maxKind);
    }
  }
}
