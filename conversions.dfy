/**
 * The unit conversions applied to forecast series before plotting. A series
 * holds `None` where the forecast has no sample; a conversion keeps those
 * gaps where they are and converts every present sample.
 */
module Conversions {
  import opened Wrappers
  import opened Sequences

  /** `[f(x) if x is not None else None for x in s]`. */
  function MapPresent(f: real -> real, s: seq<Option<real>>): (r: seq<Option<real>>)
    ensures |r| == |s|
    ensures forall i :: 0 <= i < |s| ==> (r[i].None? <==> s[i].None?)
    ensures forall i :: 0 <= i < |s| && s[i].Some? ==> r[i] == Some(f(s[i].value))
  {
    Map((x: Option<real>) => if x.Some? then Some(f(x.value)) else None, s)
  }

  const KelvinOffset: real := 273.15
  const MillimetresPerMetre: real := 1000.0

  /** Kelvin to degrees Celsius, sample by sample. */
  function KelvinToCelsius(temps: seq<Option<real>>): (celsius: seq<Option<real>>)
    ensures |celsius| == |temps|
    ensures forall i :: 0 <= i < |temps| ==> (celsius[i].None? <==> temps[i].None?)
    ensures forall i :: 0 <= i < |temps| && temps[i].Some? ==> celsius[i] == Some(temps[i].value - 273.15)
  {
    MapPresent(t => t - KelvinOffset, temps)
  }

  /** Metres of precipitation to millimetres, sample by sample. */
  function MetresToMillimetres(vals: seq<Option<real>>): (mm: seq<Option<real>>)
    ensures |mm| == |vals|
    ensures forall i :: 0 <= i < |vals| ==> (mm[i].None? <==> vals[i].None?)
    ensures forall i :: 0 <= i < |vals| && vals[i].Some? ==> mm[i] == Some(vals[i].value * 1000.0)
  {
    MapPresent(v => v * MillimetresPerMetre, vals)
  }

  /** Adding the offset back recovers the Kelvin series, gaps included. */
  lemma CelsiusBackToKelvin(temps: seq<Option<real>>)
    ensures MapPresent(c => c + 273.15, KelvinToCelsius(temps)) == temps
  {
  }

  /** Dividing by 1000 recovers the series in metres, gaps included. */
  lemma MillimetresBackToMetres(vals: seq<Option<real>>)
    ensures MapPresent(m => m / 1000.0, MetresToMillimetres(vals)) == vals
  {
  }

  /** Water freezes at 273.15 K, that is 0 degrees Celsius; a gap stays a gap. */
  lemma FreezingPoint()
    ensures KelvinToCelsius([Some(273.15), None]) == [Some(0.0), None]
  {
  }

  /** One millimetre of precipitation is 0.001 m. */
  lemma OneMillimetre()
    ensures MetresToMillimetres([Some(0.001), None]) == [Some(1.0), None]
  {
  }
}
