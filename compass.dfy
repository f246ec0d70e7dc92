/** `deg_to_compass`: the 16-point compass label nearest to a bearing in degrees. */
module Compass {
  import opened Rounding

  /** The 16 labels, clockwise from North, 22.5 degrees apart. */
  const Directions: seq<string> :=
    ["N", "NNE", "NE", "ENE", "E", "ESE", "SE", "SSE",
     "S", "SSW", "SW", "WSW", "W", "WNW", "NW", "NNW"]

  /** The bearing of compass point `ix`, `turns` full turns away from the first one. */
  function Bearing(ix: int, turns: int): real
  {
    22.5 * ix as real + 360.0 * turns as real
  }

  /**
   * `round(deg / 22.5) % 16`: always a valid table index, and the compass
   * point it names lies within half a sector (11.25 degrees) of `deg`,
   * up to whole turns. On an exact tie between two points, the even one wins.
   */
  function CompassIndex(deg: real): (ix: int)
    ensures 0 <= ix < 16
    ensures exists turns: int {:trigger Bearing(ix, turns)} :: -11.25 <= deg - Bearing(ix, turns) <= 11.25
    ensures (exists turns: int {:trigger Bearing(ix, turns)} ::
               deg - Bearing(ix, turns) == 11.25 || deg - Bearing(ix, turns) == -11.25) ==> ix % 2 == 0
  {
    var r := RoundHalfEven(deg / 22.5);
    var i := r % 16;
    assert r == i + 16 * (r / 16);
    assert deg - Bearing(i, r / 16) == 22.5 * (deg / 22.5 - r as real);
    TieIsEven(deg, i, r);
    i
  }

  lemma TieIsEven(deg: real, ix: int, r: int)
    requires IsHalfEvenRounding(deg / 22.5, r)
    requires 0 <= ix < 16 && r == ix + 16 * (r / 16)
    ensures (exists turns: int {:trigger Bearing(ix, turns)} ::
               deg - Bearing(ix, turns) == 11.25 || deg - Bearing(ix, turns) == -11.25) ==> ix % 2 == 0
  {
    if exists turns: int {:trigger Bearing(ix, turns)} ::
         deg - Bearing(ix, turns) == 11.25 || deg - Bearing(ix, turns) == -11.25 {
      var t: int :| deg - Bearing(ix, t) == 11.25 || deg - Bearing(ix, t) == -11.25;
      var x := deg / 22.5;
      var n := ix + 16 * t;
      assert deg - Bearing(ix, t) == 22.5 * (x - n as real);
      HalfwayRoundingIsEven(x, n, r, t - r / 16);
      EvenResidue(r, r / 16, ix);
    }
  }

  /**
   * If x lies exactly half-way at an integer n that differs from its rounding r
   * by a multiple of 16, then n is r, and r is even by the tie rule.
   */
  lemma HalfwayRoundingIsEven(x: real, n: int, r: int, k: int)
    requires IsHalfEvenRounding(x, r)
    requires x - n as real == 0.5 || x - n as real == -0.5
    requires n - r == 16 * k
    ensures r % 2 == 0
  {
    assert -1 <= n - r <= 1;
    assert k == 0;
  }

  /** Removing whole multiples of 16 from an even number leaves an even residue. */
  lemma EvenResidue(r: int, q: int, ix: int)
    requires r % 2 == 0 && r == ix + 16 * q
    ensures ix % 2 == 0
  {
    assert ix == r - 2 * (8 * q);
  }

  /** `deg_to_compass(deg)`: one of the 16 labels, for every real bearing, never failing. */
  function DegToCompass(deg: real): (point: string)
    ensures point in Directions
    ensures point == Directions[CompassIndex(deg)]
  {
    Directions[CompassIndex(deg)]
  }

  /** A bearing exactly on compass point k (any integer k) gets that point's label. */
  lemma SectorCentre(k: int)
    ensures DegToCompass(22.5 * k as real) == Directions[k % 16]
  {
  }

  /** A full turn does not change the label: 360 / 22.5 is 16, an even shift. */
  lemma FullTurn(deg: real)
    ensures DegToCompass(deg + 360.0) == DegToCompass(deg)
  {
    var x := deg / 22.5;
    assert (deg + 360.0) / 22.5 == x + 16 as real;
    RoundShiftEven(x, 16);
    var r := RoundHalfEven(x);
    assert CompassIndex(deg + 360.0) == (r + 16) % 16 == r % 16 == CompassIndex(deg);
  }

  /** Cardinal points and the wrap-around at the top of the circle. */
  lemma NorthLabel()
    ensures DegToCompass(0.0) == "N"
  {
  }

  lemma EastLabel()
    ensures DegToCompass(90.0) == "E"
  {
  }

  lemma SouthLabel()
    ensures DegToCompass(180.0) == "S"
  {
  }

  lemma WestLabel()
    ensures DegToCompass(270.0) == "W"
  {
  }

  /** 359 / 22.5 is about 15.96, which rounds to 16, and 16 % 16 == 0. */
  lemma WrapsToNorth()
    ensures DegToCompass(359.0) == "N"
  {
  }

  /** Half-way bearings follow half-to-even rounding: 0.5 rounds to 0. */
  lemma TieRoundsDownToNorth()
    ensures DegToCompass(11.25) == "N"
  {
  }

  /** Half-way bearings follow half-to-even rounding: 1.5 rounds to 2. */
  lemma TieRoundsUpToNorthEast()
    ensures DegToCompass(33.75) == "NE"
  {
  }
}
