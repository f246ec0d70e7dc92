/** Assembly of the wind-speed and wind-direction series from the u and v component series. */
module Wind {

  function Min(a: int, b: int): int
  {
    if a <= b then a else b
  }

  /**
   * `for uu, vv in zip(u_vals, v_vals)`: pairs the two component series
   * position by position, stopping at the shorter one, and appends the
   * speed and the direction of each pair to two parallel lists.
   * `speedDirection` stands for `wind_speed_direction`, which returns
   * (speed in knots, meteorological direction in degrees).
   */
  method AssembleWind(uVals: seq<real>, vVals: seq<real>, speedDirection: (real, real) -> (real, real))
    returns (speeds: seq<real>, dirs: seq<real>)
    ensures |speeds| == Min(|uVals|, |vVals|) && |dirs| == |speeds|
    ensures forall i :: 0 <= i < |speeds| ==> speeds[i] == speedDirection(uVals[i], vVals[i]).0
    ensures forall i :: 0 <= i < |dirs| ==> dirs[i] == speedDirection(uVals[i], vVals[i]).1
  {
    speeds, dirs := [], [];
    var i := 0;
    while i < |uVals| && i < |vVals|
      invariant 0 <= i <= Min(|uVals|, |vVals|)
      invariant |speeds| == i && |dirs| == i
      invariant forall j :: 0 <= j < i ==> speeds[j] == speedDirection(uVals[j], vVals[j]).0
      invariant forall j :: 0 <= j < i ==> dirs[j] == speedDirection(uVals[j], vVals[j]).1
    {
      var (speed, d) := speedDirection(uVals[i], vVals[i]);
      speeds := speeds + [speed];
      dirs := dirs + [d];
      i := i + 1;
    }
  }
}
