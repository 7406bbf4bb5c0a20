/** Dotted version strings of any length and their numeric meaning: components separated by
    dots, compared number by number, a missing component counting as zero. */
module Versions {

  type Version = seq<nat>

  datatype Order = Less | Equal | Greater

  // ---------- Text ----------

  predicate IsDigit(c: char) { '0' <= c <= '9' }

  /** The texts between the dots. */
  function Pieces(s: string): (pieces: seq<string>)
    ensures pieces != []
  {
    if s == "" then [""]
    else
      var rest := Pieces(s[1..]);
      if s[0] == '.' then [""] + rest else Extend(s[0], rest)
  }

  function Extend(c: char, pieces: seq<string>): seq<string>
    requires pieces != []
  {
    [[c] + pieces[0]] + pieces[1..]
  }

  function Dots(s: string): nat {
    if s == "" then 0 else (if s[0] == '.' then 1 else 0) + Dots(s[1..])
  }

  function Decimal(digits: string): nat
    requires forall c :: c in digits ==> IsDigit(c)
  {
    if digits == "" then 0
    else
      var last := digits[|digits| - 1];
      assert IsDigit(last);
      10 * Decimal(digits[..|digits| - 1]) + (last as int - '0' as int)
  }

  predicate IsNumber(piece: string) {
    piece != "" && forall c :: c in piece ==> IsDigit(c)
  }

  predicate IsNumberList(pieces: seq<string>) {
    forall i :: 0 <= i < |pieces| ==> IsNumber(pieces[i])
  }

  predicate IsDotted(s: string) {
    IsNumberList(Pieces(s))
  }

  function Values(pieces: seq<string>): (v: Version)
    requires IsNumberList(pieces)
    ensures |v| == |pieces|
    ensures forall i :: 0 <= i < |v| ==> v[i] == Decimal(pieces[i])
  {
    if pieces == [] then []
    else
      assert IsNumber(pieces[0]);
      [Decimal(pieces[0])] + Values(pieces[1..])
  }

  function Numbers(s: string): Version
    requires IsDotted(s)
  {
    Values(Pieces(s))
  }

  lemma {:induction false} DotsCountPieces(s: string)
    ensures |Pieces(s)| == Dots(s) + 1
  {
    if s != "" {
      DotsCountPieces(s[1..]);
    }
  }

  lemma {:induction false} PiecesOfJoin(a: string, b: string)
    ensures Pieces(a + "." + b) == Pieces(a) + Pieces(b)
  {
    var s := a + "." + b;
    if a == "" {
      assert s[0] == '.' && s[1..] == b;
    } else {
      assert s[0] == a[0] && s[1..] == a[1..] + "." + b;
      PiecesOfJoin(a[1..], b);
      ExtendConcat(a[0], Pieces(a[1..]), Pieces(b));
    }
  }

  /** A text without dots is its own only piece. */
  lemma {:induction false} PiecesWithoutDots(s: string)
    requires '.' !in s
    ensures Pieces(s) == [s]
  {
    if s != "" {
      assert s == [s[0]] + s[1..];
      PiecesWithoutDots(s[1..]);
    }
  }

  /** The decimal notation of a number. */
  function Show(n: nat): string {
    if n < 10 then [('0' as int + n) as char] else Show(n / 10) + [('0' as int + n % 10) as char]
  }

  /** A component is the number that it denotes, and leading zeros do not matter. */
  lemma {:induction false} DecimalOfShow(n: nat)
    ensures IsNumber(Show(n)) && Decimal(Show(n)) == n
  {
    var digits := Show(n);
    if n < 10 {
      assert digits[..0] == "";
    } else {
      DecimalOfShow(n / 10);
      assert digits[..|digits| - 1] == Show(n / 10);
    }
  }

  /** Two digits are tens and ones. */
  lemma TwoDigits(tens: char, ones: char)
    requires IsDigit(tens) && IsDigit(ones)
    ensures Decimal([tens, ones]) == 10 * (tens as int - '0' as int) + (ones as int - '0' as int)
  {
    assert [tens, ones][..1] == [tens] && [tens][..0] == "";
    assert Decimal([tens]) == tens as int - '0' as int;
  }

  lemma {:induction false} LeadingZero(digits: string)
    requires forall c :: c in digits ==> IsDigit(c)
    ensures Decimal("0" + digits) == Decimal(digits)
  {
    var longer := "0" + digits;
    if digits == "" {
      assert longer == "0" && longer[..0] == "";
    } else {
      var n := |digits| - 1;
      assert longer[..n + 1] == "0" + digits[..n] && longer[n + 1] == digits[n];
      LeadingZero(digits[..n]);
    }
  }

  /** The text of a version of three numbers, whatever they are. */
  lemma TextOfThree(a: nat, b: nat, c: nat)
    ensures var s := Show(a) + "." + (Show(b) + "." + Show(c));
      IsDotted(s) && Numbers(s) == [a, b, c]
  {
    DecimalOfShow(a);
    DecimalOfShow(b);
    DecimalOfShow(c);
    PiecesWithoutDots(Show(a));
    PiecesWithoutDots(Show(b));
    PiecesWithoutDots(Show(c));
    PiecesOfJoin(Show(b), Show(c));
    PiecesOfJoin(Show(a), Show(b) + "." + Show(c));
    assert Pieces(Show(a) + "." + (Show(b) + "." + Show(c))) == [Show(a), Show(b), Show(c)];
  }

  lemma ExtendConcat(c: char, p: seq<string>, q: seq<string>)
    requires p != []
    ensures Extend(c, p + q) == Extend(c, p) + q
    ensures [""] + (p + q) == [""] + p + q
  {
    assert (p + q)[1..] == p[1..] + q;
  }

  // ---------- Numbers ----------

  function At(v: Version, i: nat): nat {
    if i < |v| then v[i] else 0
  }

  function Rest(v: Version): Version {
    if v == [] then [] else v[1..]
  }

  /** VERSION_LESS, VERSION_EQUAL and VERSION_GREATER in one. */
  function Compare(a: Version, b: Version): Order
    decreases |a| + |b|
  {
    if a == [] && b == [] then Equal
    else if At(a, 0) < At(b, 0) then Less
    else if At(a, 0) > At(b, 0) then Greater
    else Compare(Rest(a), Rest(b))
  }

  /** The same number at every position. */
  ghost predicate Same(a: Version, b: Version) {
    forall i: nat :: At(a, i) == At(b, i)
  }

  /** The first position where they differ is smaller on the left. */
  ghost predicate PrecedesAt(a: Version, b: Version, i: nat) {
    At(a, i) < At(b, i) && forall j: nat :: j < i ==> At(a, j) == At(b, j)
  }

  ghost predicate Precedes(a: Version, b: Version) {
    exists i: nat :: PrecedesAt(a, b, i)
  }

  lemma AtRest(v: Version, i: nat)
    ensures At(Rest(v), i) == At(v, i + 1)
  {
  }

  lemma PrecedesRest(a: Version, b: Version)
    requires At(a, 0) == At(b, 0)
    ensures Precedes(Rest(a), Rest(b)) <==> Precedes(a, b)
  {
    forall i: nat ensures At(Rest(a), i) == At(a, i + 1) && At(Rest(b), i) == At(b, i + 1) {}
    if i: nat :| PrecedesAt(Rest(a), Rest(b), i) {
      forall j: nat | j < i + 1
        ensures At(a, j) == At(b, j)
      {
        if j > 0 { AtRest(a, j - 1); AtRest(b, j - 1); }
      }
      assert PrecedesAt(a, b, i + 1);
    }
    if i: nat :| PrecedesAt(a, b, i) {
      AtRest(a, i - 1);
      AtRest(b, i - 1);
      assert PrecedesAt(Rest(a), Rest(b), i - 1);
    }
  }

  lemma SameRest(a: Version, b: Version)
    requires At(a, 0) == At(b, 0)
    ensures Same(Rest(a), Rest(b)) <==> Same(a, b)
  {
    if Same(Rest(a), Rest(b)) {
      forall i: nat
        ensures At(a, i) == At(b, i)
      {
        if i > 0 { AtRest(a, i - 1); AtRest(b, i - 1); }
      }
    }
    if Same(a, b) {
      forall i: nat
        ensures At(Rest(a), i) == At(Rest(b), i)
      {
        AtRest(a, i);
        AtRest(b, i);
      }
    }
  }

  lemma {:induction false} CompareMeaning(a: Version, b: Version)
    ensures Compare(a, b) == Less <==> Precedes(a, b)
    ensures Compare(a, b) == Equal <==> Same(a, b)
    ensures Compare(a, b) == Greater <==> Precedes(b, a)
    decreases |a| + |b|
  {
    if a == [] && b == [] {
    } else if At(a, 0) == At(b, 0) {
      CompareMeaning(Rest(a), Rest(b));
      PrecedesRest(a, b);
      PrecedesRest(b, a);
      SameRest(a, b);
    } else {
      assert At(a, 0) < At(b, 0) ==> PrecedesAt(a, b, 0);
      assert At(a, 0) > At(b, 0) ==> PrecedesAt(b, a, 0);
    }
  }

  lemma PrecedesTransitive(a: Version, b: Version, c: Version)
    requires Precedes(a, b) && Precedes(b, c)
    ensures Precedes(a, c)
  {
    var i: nat :| PrecedesAt(a, b, i);
    var k: nat :| PrecedesAt(b, c, k);
    assert PrecedesAt(a, c, if i < k then i else k);
  }

  lemma PrecedesRespectsSame(a: Version, b: Version, a': Version, b': Version)
    requires Precedes(a, b) && Same(a, a') && Same(b, b')
    ensures Precedes(a', b')
  {
    var i: nat :| PrecedesAt(a, b, i);
    assert PrecedesAt(a', b', i);
  }

  lemma PrecedesTotal(a: Version, b: Version)
    ensures Precedes(a, b) || Precedes(b, a) || Same(a, b)
    ensures !(Precedes(a, b) && Precedes(b, a))
    ensures !(Precedes(a, b) && Same(a, b))
  {
    CompareMeaning(a, b);
  }

  lemma PrecedesWeakTransitive(a: Version, b: Version, c: Version)
    requires !Precedes(b, a) && !Precedes(c, b)
    ensures !Precedes(c, a)
  {
    PrecedesTotal(a, b);
    PrecedesTotal(b, c);
    PrecedesTotal(a, c);
    if Precedes(a, b) && Precedes(b, c) {
      PrecedesTransitive(a, b, c);
    } else if Precedes(a, b) {
      PrecedesRespectsSame(a, b, a, c);
    } else if Precedes(b, c) {
      PrecedesRespectsSame(b, c, a, c);
    }
  }
}
