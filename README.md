# Zeus forecast dashboard: data transformations

A Dafny model of the data transformations inside the Zeus forecast dashboard,
a Streamlit page that fetches hourly forecasts and draws them. The page is a
single script. The HTTP calls, widgets and charts are left out. What is modelled
is what the script does to the numbers and strings between fetching and drawing:

- `deg_to_compass`: a bearing in degrees becomes one of 16 compass labels via
  Python's half-to-even `round(deg / 22.5) % 16` (modules `Rounding`, `Compass`);
- the null-preserving conversions Kelvin to Celsius and metres to millimetres
  (module `Conversions`, with the element-wise map in `Sequences`);
- the loop that zips the u and v wind components into parallel speed and
  direction lists (module `Wind`, an imperative method with loop invariants);
- the data `plot_time_series` returns: empty lists on empty input, otherwise
  one rendered time per input time and the values unchanged (module `Plot`);
- the defaulting of the account-usage fields: "N/A" for a missing credit field,
  "Unknown" for a missing or empty reset time (module `Usage`).

Numbers are Dafny `real`, so the model is exact where Python's floats round.
`wind_speed_direction` and the time rendering (`fromisoformat`, `astimezone()`,
`strftime`) are passed in as function parameters. The model says nothing about their
results beyond "one output per input, in order".

## Model

| member | source | states |
|---|---|---|
| Sequences.Map | streamlit_app.py:50 | a list comprehension keeps the length and applies the function at every position |
| Rounding.RoundHalfEven | streamlit_app.py:41 | Python's `round`: the result is within one half of the input, and even when exactly one half away |
| Rounding.RoundingIsUnique | streamlit_app.py:41 | any integer meeting that rule is the rounding, so the rule fully determines `round` |
| Rounding.RoundOfInteger | streamlit_app.py:41 | an integer rounds to itself |
| Rounding.RoundShiftEven | streamlit_app.py:41 | adding an even integer before rounding is the same as adding it after |
| Rounding.RoundShiftOddFails | streamlit_app.py:41 | the same does not hold for odd shifts: round(1.5) is 2, not round(0.5) + 1 |
| Compass.CompassIndex | streamlit_app.py:41 | `round(deg / 22.5) % 16` is in 0..15 for every real bearing; that compass point is within 11.25 degrees of the bearing, up to whole turns; on an exact tie the index is even |
| Compass.DegToCompass | streamlit_app.py:38-42 | the result is always one of the 16 labels, the one at that index, and never fails |
| Compass.SectorCentre | streamlit_app.py:39-42 | the bearing 22.5·k gets label k mod 16, for every integer k, including negative k |
| Compass.FullTurn | streamlit_app.py:41 | adding 360 degrees does not change the label |
| Compass.NorthLabel | streamlit_app.py:39-42 | 0 degrees is "N" |
| Compass.EastLabel | streamlit_app.py:39-42 | 90 degrees is "E" |
| Compass.SouthLabel | streamlit_app.py:39-42 | 180 degrees is "S" |
| Compass.WestLabel | streamlit_app.py:39-42 | 270 degrees is "W" |
| Compass.WrapsToNorth | streamlit_app.py:41-42 | 359 degrees is "N" (rounds to 16, and 16 mod 16 is 0) |
| Compass.TieRoundsDownToNorth | streamlit_app.py:41 | 11.25 degrees (exactly 0.5 sectors) is "N" under half-to-even rounding |
| Compass.TieRoundsUpToNorthEast | streamlit_app.py:41 | 33.75 degrees (exactly 1.5 sectors) is "NE" under half-to-even rounding |
| Conversions.MapPresent | streamlit_app.py:134 | a null-preserving comprehension: same length, `None` exactly where the input has `None`, the function applied to every present value |
| Conversions.KelvinToCelsius | streamlit_app.py:134 | same length, `None` at exactly the input's `None` positions, `t - 273.15` at every other position |
| Conversions.MetresToMillimetres | streamlit_app.py:157 | same length, `None` at exactly the input's `None` positions, `v * 1000` at every other position |
| Conversions.CelsiusBackToKelvin | streamlit_app.py:134 | adding 273.15 back to the present values recovers the input series exactly |
| Conversions.MillimetresBackToMetres | streamlit_app.py:157 | dividing the present values by 1000 recovers the input series exactly |
| Conversions.FreezingPoint | streamlit_app.py:134 | 273.15 K converts to 0 °C, and a gap stays a gap |
| Conversions.OneMillimetre | streamlit_app.py:157 | 0.001 m converts to 1 mm, and a gap stays a gap |
| Wind.AssembleWind | streamlit_app.py:174-178 | both output lists have length min(len(u_vals), len(v_vals)); element i of each is the speed or the direction of `wind_speed_direction(u_vals[i], v_vals[i])`, in input order |
| Plot.PlotTimeSeries | streamlit_app.py:44-59 | empty times or empty values give `([], [])`; otherwise the values come back unchanged and the times are converted one for one, same length and order |
| Plot.NoDataIffEmptyInput | streamlit_app.py:45-47 | either returned list is empty exactly when the times or the values were empty |
| Usage.Summarize | streamlit_app.py:105-115 | each credit field is its stored value or "N/A" when missing; the reset time is "Unknown" when `resets_at` is missing or empty, and otherwise the text rendered by `toLocal` (parse, `astimezone()`, `strftime`) |
| Usage.OnlyUsageKeysMatter | streamlit_app.py:105-108 | two usage objects that agree on the four usage keys give the same summary, whatever else they hold |
| Usage.EmptyUsage | streamlit_app.py:105-115 | an empty usage object gives "N/A" for every credit field and "Unknown" for the reset time |

## Left out

- `fetch_forecast` (streamlit_app.py:14-30) and the usage request (streamlit_app.py:100-104, 123-126): network I/O and Streamlit error messages.
- `wind_speed_direction` (streamlit_app.py:32-36): `sqrt`, `atan2` and float `%` have no exact counterpart over `real`. It is a function parameter of `Wind.AssembleWind`, about which nothing is assumed.
- Time handling (streamlit_app.py:15-22, 50, 111-113): the clock, `fromisoformat`, `astimezone()` and `strftime` depend on the environment. They are function parameters, one output string per input string. A malformed timestamp, which would make `fromisoformat` raise, is not modelled.
- Usage.Summarize: the reset time is not converted from UTC to local time, although the variable name and comment at streamlit_app.py:111-112 say it is. For a Z-suffixed timestamp, stripping "Z" and calling `fromisoformat` gives a datetime with no offset, and `astimezone()` takes such a value as host-local already. So such a UTC wall-clock time is shown unshifted, labelled with the host's zone name by `%Z`. The same holds at streamlit_app.py:50 for API timestamps without an offset. A timestamp written with an explicit offset such as "+00:00" keeps it and is shifted. `toLocal` is opaque, so the model neither states nor refutes the shift.
- Floating point: `deg / 22.5`, `t - 273.15` and `v * 1000` are exact in the model and rounded in Python. The stated values agree with Python's doubles: 11.25, 22.5 and 33.75 are exact doubles, so are the quotients 0.5 and 1.5, and `273.15 - 273.15` and `0.001 * 1000` give exactly 0.0 and 1.0. In Python the round trips `CelsiusBackToKelvin` and `MillimetresBackToMetres` may be off by an ulp. A bearing whose quotient by 22.5 is not exactly representable can round the other way near a tie. `Compass.FullTurn` holds over `real` only: in doubles `d + 360.0` is itself rounded, and within about 2⁻⁴⁵ of a tie the label can change (d = 11.25 + 2⁻⁴⁹ gives "NNE", while d + 360.0 rounds to 371.25 and gives "N"). NaN and infinite bearings, on which Python's `round` raises, do not exist over `real`.
- Usage.Summarize: the usage object is a `map<string, string>` of already-rendered values. A key that is present with a JSON `null` value (Python shows "None", and `resets_at` falls to "Unknown") and other falsy JSON values are not distinguished.
- Plot.PlotTimeSeries: the chart itself and the warning are not modelled. Matplotlib raises on times and values of different lengths, and the model does not capture that. The model returns the pair whatever the lengths.
- The series are passed in directly. Extracting them from the response (`data["hourly"].get(..., [])`) is not modelled, and neither is the wind tab's choice of the last direction and its label (streamlit_app.py:184-186).
- Widgets, tabs, the formatted "Latest Forecast" messages (`:.1f`, `:.0f`) and the polar chart (streamlit_app.py:62-194): presentation only.
- Wind.AssembleWind: the component series are taken as present numbers. A `None` sample would make `wind_speed_direction` raise in Python, and that case is not modelled.
