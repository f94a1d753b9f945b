/**
 * utils/geometry.ts: the area of a traced boundary (shoelace formula over an
 * equirectangular projection) and its split into Thai land units.
 */
module Geometry {
  import opened Types
  import opened JsNumber

  // ---------------------------------------------------------------------------
  // Projection
  // ---------------------------------------------------------------------------

  /** Earth's radius in metres, as the source fixes it. */
  const EarthRadius: real := 6378137.0

  /**
   * The floating-point environment the projection uses: the value of `Math.PI`
   * and the function `Math.cos`. Both are left abstract; every theorem below
   * holds whatever they are.
   */
  datatype Trig = Trig(pi: real, cos: real -> real)

  /** A point of the plane, in metres. */
  datatype Point = Point(x: real, y: real)

  /** Degrees to radians, `deg * Math.PI / 180`. */
  function Radians(t: Trig, deg: real): real {
    deg * t.pi / 180.0
  }

  /** The equirectangular projection of one coordinate. */
  function Project(t: Trig, c: Coordinate): Point {
    Point(Radians(t, c.lng) * EarthRadius * t.cos(Radians(t, c.lat)), Radians(t, c.lat) * EarthRadius)
  }

  /** The projection applied to every coordinate, in order. */
  function Projected(t: Trig, cs: seq<Coordinate>): (ps: seq<Point>)
    ensures |ps| == |cs|
  {
    seq(|cs|, i requires 0 <= i < |cs| => Project(t, cs[i]))
  }

  // ---------------------------------------------------------------------------
  // Sequences: rotation, reversal, sums
  // ---------------------------------------------------------------------------

  /** The ring `s` read from position `k` on. */
  function Rotate<T>(s: seq<T>, k: nat): seq<T>
    requires k <= |s|
  {
    s[k..] + s[..k]
  }

  function Reverse<T>(s: seq<T>): (r: seq<T>)
    ensures |r| == |s|
  {
    seq(|s|, i requires 0 <= i < |s| => s[|s| - 1 - i])
  }

  function Negate(s: seq<real>): (r: seq<real>)
    ensures |r| == |s|
  {
    seq(|s|, i requires 0 <= i < |s| => -s[i])
  }

  /** The sum of a sequence of reals, accumulated from the front as a loop does. */
  function Sum(s: seq<real>): real {
    if s == [] then 0.0 else Sum(s[..|s| - 1]) + s[|s| - 1]
  }

  lemma SumPrefix(s: seq<real>, i: nat)
    requires i < |s|
    ensures Sum(s[..i + 1]) == Sum(s[..i]) + s[i]
  {
    assert s[..i + 1][..i] == s[..i];
  }

  lemma {:induction false} SumConcat(a: seq<real>, b: seq<real>)
    ensures Sum(a + b) == Sum(a) + Sum(b)
  {
    if b != [] {
      assert (a + b)[..|a + b| - 1] == a + b[..|b| - 1];
      SumConcat(a, b[..|b| - 1]);
    } else {
      assert a + b == a;
    }
  }

  lemma {:induction false} SumRotate(s: seq<real>, k: nat)
    requires k <= |s|
    ensures Sum(Rotate(s, k)) == Sum(s)
  {
    SumConcat(s[k..], s[..k]);
    SumConcat(s[..k], s[k..]);
    assert s[..k] + s[k..] == s;
  }

  lemma {:induction false} SumNegate(s: seq<real>)
    ensures Sum(Negate(s)) == -Sum(s)
  {
    if s != [] {
      assert Negate(s)[..|s| - 1] == Negate(s[..|s| - 1]);
      SumNegate(s[..|s| - 1]);
    }
  }

  lemma {:induction false} SumReverse(s: seq<real>)
    ensures Sum(Reverse(s)) == Sum(s)
  {
    if s != [] {
      var n := |s|;
      assert Reverse(s) == [s[n - 1]] + Reverse(s[..n - 1]);
      SumConcat([s[n - 1]], Reverse(s[..n - 1]));
      SumReverse(s[..n - 1]);
      assert Sum([s[n - 1]]) == s[n - 1] by {
        assert [s[n - 1]][..0] == [];
      }
    }
  }

  // ---------------------------------------------------------------------------
  // Shoelace formula over a closed ring
  // ---------------------------------------------------------------------------

  /** The cross product `x1 * y2 - x2 * y1` of two projected points. */
  function Cross(p: Point, q: Point): real {
    p.x * q.y - q.x * p.y
  }

  /** Term `i` of the shoelace sum: point `i` with point `(i + 1) % n`. */
  function RingTerm(ps: seq<Point>, i: nat): real
    requires i < |ps|
  {
    Cross(ps[i], ps[(i + 1) % |ps|])
  }

  /** All terms of the shoelace sum; the last one closes the ring on the first point. */
  function RingTerms(ps: seq<Point>): (r: seq<real>)
    ensures |r| == |ps|
    ensures |ps| > 0 ==> r[|ps| - 1] == Cross(ps[|ps| - 1], ps[0])
  {
    assert |ps| > 0 ==> (|ps| - 1 + 1) % |ps| == 0 by {
      if |ps| > 0 {
        NextIndex(|ps| - 1, |ps|);
      }
    }
    seq(|ps|, i requires 0 <= i < |ps| => RingTerm(ps, i))
  }

  /** Twice the signed area of the ring. */
  function ShoelaceSum(ps: seq<Point>): real {
    Sum(RingTerms(ps))
  }

  function Abs(x: real): real {
    if x < 0.0 then -x else x
  }

  /** The area of the planar ring: 0 below three points, else half the absolute shoelace sum. */
  function PolygonArea(ps: seq<Point>): (a: real)
    ensures a >= 0.0
    ensures |ps| < 3 ==> a == 0.0
  {
    if |ps| < 3 then 0.0 else Abs(ShoelaceSum(ps)) / 2.0
  }

  /** The area in square metres that `calculateArea` computes for a boundary. */
  function Area(t: Trig, cs: seq<Coordinate>): (a: real)
    ensures a >= 0.0
    ensures |cs| < 3 ==> a == 0.0
  {
    PolygonArea(Projected(t, cs))
  }

  /** Term `i` of the projected ring, in terms of the coordinates themselves. */
  lemma ProjectedRingTerm(t: Trig, cs: seq<Coordinate>, i: nat)
    requires i < |cs|
    ensures RingTerms(Projected(t, cs))[i] == Cross(Project(t, cs[i]), Project(t, cs[(i + 1) % |cs|]))
  {
  }

  /** `calculateArea`: the loop that accumulates the shoelace terms. */
  method CalculateArea(t: Trig, coords: seq<Coordinate>) returns (result: real)
    ensures result == Area(t, coords)
    ensures result >= 0.0
    ensures |coords| < 3 ==> result == 0.0
  {
    if |coords| < 3 {
      return 0.0;
    }
    ghost var terms := RingTerms(Projected(t, coords));
    var area := 0.0;
    for i := 0 to |coords|
      invariant area == Sum(terms[..i])
    {
      var p1 := Project(t, coords[i]);
      var p2 := Project(t, coords[(i + 1) % |coords|]);
      ProjectedRingTerm(t, coords, i);
      var term := Cross(p1, p2);
      SumPrefix(terms, i);
      area := area + term;
    }
    assert terms[..|coords|] == terms;
    assert area == ShoelaceSum(Projected(t, coords));
    result := Abs(area) / 2.0;
  }

  // ---------------------------------------------------------------------------
  // Invariance under rotation and reversal
  // ---------------------------------------------------------------------------

  lemma NextIndex(i: nat, n: nat)
    requires i < n
    ensures (i + 1) % n == if i + 1 < n then i + 1 else 0
  {
  }

  /** Rotating the points rotates the shoelace terms by the same amount. */
  lemma {:induction false} RingTermsRotate(ps: seq<Point>, k: nat)
    requires k < |ps|
    ensures RingTerms(Rotate(ps, k)) == Rotate(RingTerms(ps), k)
  {
    var n := |ps|;
    var r := Rotate(ps, k);
    var terms := RingTerms(ps);
    forall i | 0 <= i < n
      ensures RingTerms(r)[i] == Rotate(terms, k)[i]
    {
      NextIndex(i, n);
      if i + k < n {
        NextIndex(i + k, n);
      } else {
        NextIndex(i + k - n, n);
      }
    }
  }

  /** Starting the ring at another point leaves the area unchanged. */
  lemma {:induction false} PolygonAreaRotate(ps: seq<Point>, k: nat)
    requires k <= |ps|
    ensures PolygonArea(Rotate(ps, k)) == PolygonArea(ps)
  {
    if k == |ps| {
      assert Rotate(ps, k) == ps;
    } else {
      RingTermsRotate(ps, k);
      SumRotate(RingTerms(ps), k);
    }
  }

  /** Reversing the points negates every shoelace term and reverses their order (up to the closing term). */
  lemma {:induction false} RingTermsReverse(ps: seq<Point>)
    requires |ps| > 0
    ensures var terms := RingTerms(ps);
            RingTerms(Reverse(ps)) == Negate(Reverse(terms[..|ps| - 1]) + [terms[|ps| - 1]])
  {
    var n := |ps|;
    var rev := Reverse(ps);
    var terms := RingTerms(ps);
    var want := Negate(Reverse(terms[..n - 1]) + [terms[n - 1]]);
    forall i | 0 <= i < n
      ensures RingTerms(rev)[i] == want[i]
    {
      NextIndex(i, n);
      if i < n - 1 {
        NextIndex(n - 2 - i, n);
        calc {
          RingTerms(rev)[i];
          Cross(ps[n - 1 - i], ps[n - 2 - i]);
          -Cross(ps[n - 2 - i], ps[n - 1 - i]);
          -terms[n - 2 - i];
          { assert Reverse(terms[..n - 1])[i] == terms[n - 2 - i]; }
          want[i];
        }
      } else {
        calc {
          RingTerms(rev)[i];
          Cross(ps[0], ps[n - 1]);
          -Cross(ps[n - 1], ps[0]);
          want[i];
        }
      }
    }
  }

  /** Reversing the orientation of the ring negates its shoelace sum. */
  lemma {:induction false} ShoelaceSumReverse(ps: seq<Point>)
    ensures ShoelaceSum(Reverse(ps)) == -ShoelaceSum(ps)
  {
    if ps != [] {
      var n := |ps|;
      var terms := RingTerms(ps);
      RingTermsReverse(ps);
      SumNegate(Reverse(terms[..n - 1]) + [terms[n - 1]]);
      SumConcat(Reverse(terms[..n - 1]), [terms[n - 1]]);
      SumReverse(terms[..n - 1]);
      SumConcat(terms[..n - 1], [terms[n - 1]]);
      assert terms[..n - 1] + [terms[n - 1]] == terms;
      assert Sum([terms[n - 1]]) == terms[n - 1] by {
        assert [terms[n - 1]][..0] == [];
      }
    } else {
      assert Reverse(ps) == [];
    }
  }

  /** Reversing the point order leaves the area unchanged. */
  lemma PolygonAreaReverse(ps: seq<Point>)
    ensures PolygonArea(Reverse(ps)) == PolygonArea(ps)
  {
    ShoelaceSumReverse(ps);
  }

  /** The projection commutes with rotation and reversal of the boundary. */
  lemma ProjectedRotate(t: Trig, cs: seq<Coordinate>, k: nat)
    requires k <= |cs|
    ensures Projected(t, Rotate(cs, k)) == Rotate(Projected(t, cs), k)
  {
  }

  lemma ProjectedReverse(t: Trig, cs: seq<Coordinate>)
    ensures Projected(t, Reverse(cs)) == Reverse(Projected(t, cs))
  {
  }

  /** `calculateArea` does not depend on which traced point comes first. */
  lemma AreaRotate(t: Trig, cs: seq<Coordinate>, k: nat)
    requires k <= |cs|
    ensures Area(t, Rotate(cs, k)) == Area(t, cs)
  {
    ProjectedRotate(t, cs, k);
    PolygonAreaRotate(Projected(t, cs), k);
  }

  /** `calculateArea` does not depend on the direction in which the boundary was traced. */
  lemma AreaReverse(t: Trig, cs: seq<Coordinate>)
    ensures Area(t, Reverse(cs)) == Area(t, cs)
  {
    ProjectedReverse(t, cs);
    PolygonAreaReverse(Projected(t, cs));
  }

  lemma SumOfFour(s: seq<real>)
    requires |s| == 4
    ensures Sum(s) == s[0] + s[1] + s[2] + s[3]
  {
    SumPrefix(s, 0);
    SumPrefix(s, 1);
    SumPrefix(s, 2);
    SumPrefix(s, 3);
    assert s[..0] == [] && s[..4] == s;
  }

  /** A known value: an axis-aligned w-by-h rectangle, traced counter-clockwise, has area w * h. */
  lemma RectangleArea(w: real, h: real)
    requires w >= 0.0 && h >= 0.0
    ensures PolygonArea([Point(0.0, 0.0), Point(w, 0.0), Point(w, h), Point(0.0, h)]) == w * h
  {
    var ps := [Point(0.0, 0.0), Point(w, 0.0), Point(w, h), Point(0.0, h)];
    var terms := RingTerms(ps);
    NextIndex(3, 4);
    assert terms[0] == 0.0 && terms[1] == w * h && terms[2] == w * h && terms[3] == 0.0;
    SumOfFour(terms);
  }



  // ---------------------------------------------------------------------------
  // Thai land units: formatThaiArea
  // ---------------------------------------------------------------------------

  /** 1 rai = 4 ngan = 400 square wa = 1600 square metres. */
  const SqmPerRai: real := 1600.0
  const SqmPerNgan: real := 400.0
  const SqmPerWa: real := 4.0

  /** An area split into whole rai, whole ngan and (fractional) square wa. */
  datatype ThaiArea = ThaiArea(rai: int, ngan: int, wa: real)

  /**
   * The split `formatThaiArea` performs: floor and remainder by a rai, then by
   * a ngan, the rest in square wa. For a non-negative area the parts add back
   * to it and each lies in its unit's range.
   */
  function ThaiUnits(sqm: real): (u: ThaiArea)
    ensures sqm >= 0.0 ==> SqmPerRai * u.rai as real + SqmPerNgan * u.ngan as real + SqmPerWa * u.wa == sqm
    ensures sqm >= 0.0 ==> u.rai >= 0 && 0 <= u.ngan <= 3 && 0.0 <= u.wa < 100.0
  {
    var rai := Floor(sqm / SqmPerRai);
    var remainingAfterRai := Rem(sqm, SqmPerRai);
    var ngan := Floor(remainingAfterRai / SqmPerNgan);
    var remainingAfterNgan := Rem(remainingAfterRai, SqmPerNgan);
    ThaiArea(rai, ngan, remainingAfterNgan / SqmPerWa)
  }

  /** The split is the only one with whole rai >= 0, ngan in 0..3 and wa in [0, 100). */
  lemma ThaiUnitsUnique(sqm: real, u: ThaiArea)
    requires u.rai >= 0 && 0 <= u.ngan <= 3 && 0.0 <= u.wa < 100.0
    requires SqmPerRai * u.rai as real + SqmPerNgan * u.ngan as real + SqmPerWa * u.wa == sqm
    ensures ThaiUnits(sqm) == u
  {
    var v := ThaiUnits(sqm);
    assert v.rai == u.rai;
    assert v.ngan == u.ngan;
  }

  /** `formatThaiArea`: "<rai> ไร่ <ngan> งาน <wa to two decimals> ตร.ว.". */
  function FormatThaiArea(sqm: real): string {
    var u := ThaiUnits(sqm);
    IntToString(u.rai) + " ไร่ " + IntToString(u.ngan) + " งาน " + ToFixed2(u.wa) + " ตร.ว."
  }

  /**
   * For a whole number of square metres the three figures are written without
   * sign and without rounding: read back, they rebuild the area exactly.
   */
  lemma FormatWholeAreaExact(k: nat)
    ensures var u := ThaiUnits(k as real);
            && u.rai >= 0 && u.ngan >= 0 && u.wa >= 0.0
            && FormatThaiArea(k as real)
               == NatToString(u.rai) + " ไร่ " + NatToString(u.ngan) + " งาน " + ToFixed2(u.wa) + " ตร.ว."
            && SqmPerRai * ParseNat(NatToString(u.rai)) as real
               + SqmPerNgan * ParseNat(NatToString(u.ngan)) as real
               + SqmPerWa * Fixed2Value(ToFixed2(u.wa)) == k as real
  {
    var u := ThaiUnits(k as real);
    ParseNatToString(u.rai);
    ParseNatToString(u.ngan);
    var hundredths := 25 * (k - 1600 * u.rai - 400 * u.ngan);
    assert u.wa == hundredths as real / 100.0;
    ToFixed2Exact(u.wa, hundredths);
  }

  /** The values the display shows for an empty field, one rai, and one rai and one ngan. */
  lemma FormatThaiAreaExamples()
    ensures FormatThaiArea(0.0) == "0 ไร่ 0 งาน 0.00 ตร.ว."
    ensures FormatThaiArea(1600.0) == "1 ไร่ 0 งาน 0.00 ตร.ว."
    ensures FormatThaiArea(2000.0) == "1 ไร่ 1 งาน 0.00 ตร.ว."
  {
    assert ThaiUnits(0.0) == ThaiArea(0, 0, 0.0) by {
      ThaiUnitsUnique(0.0, ThaiArea(0, 0, 0.0));
    }
    assert ThaiUnits(1600.0) == ThaiArea(1, 0, 0.0) by {
      ThaiUnitsUnique(1600.0, ThaiArea(1, 0, 0.0));
    }
    assert ThaiUnits(2000.0) == ThaiArea(1, 1, 0.0) by {
      ThaiUnitsUnique(2000.0, ThaiArea(1, 1, 0.0));
    }
    assert NatToString(0) == "0";
    assert NatToString(1) == "1";
    assert Hundredths(0.0) == 0;
    assert ToFixed2(0.0) == "0.00";
  }

  /**
   * The square wa are rounded after the split, so a figure just short of a
   * ngan shows as 100.00 square wa: 1599.99 square metres splits into 0 rai,
   * 3 ngan and 99.9975 square wa, which `toFixed(2)` writes as "100.00".
   */
  lemma ThaiUnitsWaRoundsToHundred()
    ensures ThaiUnits(1599.99) == ThaiArea(0, 3, 99.9975)
    ensures Hundredths(99.9975) == 10000
    ensures FormatThaiArea(1599.99) == "0 ไร่ 3 งาน 100.00 ตร.ว."
  {
    ThaiUnitsUnique(1599.99, ThaiArea(0, 3, 99.9975));
    assert Hundredths(99.9975) == 10000;
    assert NatToString(3) == "3" && NatToString(0) == "0";
    assert NatToString(100) == "100" by {
      assert NatToString(10) == "10";
    }
    assert ToFixed2(99.9975) == "100.00";
  }

  /**
   * JavaScript's `%` keeps the dividend's sign, so a negative area is not
   * reduced to zeros: one square metre short of nothing shows as -1 rai, -1
   * ngan and -0.25 square wa.
   */
  lemma ThaiUnitsNegativeExample()
    ensures ThaiUnits(-1.0) == ThaiArea(-1, -1, -0.25)
  {
    assert Floor(-1.0 / SqmPerRai) == -1;
    assert Rem(-1.0, SqmPerRai) == -1.0 by {
      assert Trunc(-1.0 / SqmPerRai) == 0;
    }
    assert Floor(-1.0 / SqmPerNgan) == -1;
    assert Rem(-1.0, SqmPerNgan) == -1.0 by {
      assert Trunc(-1.0 / SqmPerNgan) == 0;
    }
  }
}
