/** The tropospheric propagation index (`compute_tropo_index`).

    One surface observation is turned into a fixed four-level synthetic
    profile (2 m, 100 m, and the 925 hPa and 850 hPa levels placed at 700 m and
    1450 m).  Each level gets a refractivity N, a modified refractivity
    M = N + 0.157 * h, and the index is minus the sum of the three vertical
    gradients of M between consecutive levels. */
module TropoIndex {
  import opened Refractivity

  /** The weather record: surface temperature (degrees C), wind speed and
      direction, pressure (hPa) and relative humidity (percent). */
  datatype Weather = Weather(t2m: real, windSpeed: real, windDir: real, pressure: real, rh: real)

  /** One level of the synthetic profile. */
  datatype Level = Level(height: real, temp: real, pressure: real, rh: real)

  /** Heights above ground (m) of the four levels. */
  const H2m: real := 2.0
  const H100: real := 100.0
  const H925: real := 700.0
  const H850: real := 1450.0

  /** Temperature drop (degrees C) from the surface to each level above it. */
  const Drop100: real := 0.65
  const Drop925: real := 5.5
  const Drop850: real := 10.0

  /** Fixed pressures (hPa) of the two upper levels. */
  const P925: real := 925.0
  const P850: real := 850.0

  /** Height coefficient of the modified refractivity, per metre. */
  const HeightCoeff: real := 0.157

  /** The four-level profile built from one observation. */
  function Profile(w: Weather): (r: seq<Level>)
    ensures |r| == 4
    ensures forall i, j :: 0 <= i < j < |r| ==> r[i].height < r[j].height
    ensures forall l :: l in r ==> l.rh == w.rh
  {
    [ Level(H2m, w.t2m, w.pressure, w.rh),
      Level(H100, w.t2m - Drop100, w.pressure, w.rh),
      Level(H925, w.t2m - Drop925, P925, w.rh),
      Level(H850, w.t2m - Drop850, P850, w.rh) ]
  }

  /** The profile's shape: levels strictly ascend and strictly cool with
      height, humidity is the surface humidity throughout, the lower two levels
      carry the surface pressure and the upper two the fixed 925 and 850 hPa. */
  lemma ProfileShape(w: Weather)
    ensures var p := Profile(w);
      && (forall i, j :: 0 <= i < j < 4 ==> p[i].height < p[j].height && p[j].temp < p[i].temp)
      && (forall i :: 0 <= i < 4 ==> p[i].rh == w.rh)
      && p[0].temp == w.t2m && p[0].pressure == w.pressure && p[1].pressure == w.pressure
      && p[2].pressure == 925.0 && p[3].pressure == 850.0
      && p[1].temp == w.t2m - 0.65 && p[2].temp == w.t2m - 5.5 && p[3].temp == w.t2m - 10.0
  {
  }

  /** Modified refractivity M = N + 0.157 * h. */
  function ModifiedN(n: real, height: real): real {
    n + HeightCoeff * height
  }

  /** Finite-difference gradient of a quantity between two levels. */
  function Gradient(low: real, high: real, hLow: real, hHigh: real): real
    requires hLow < hHigh
  {
    (high - low) / (hHigh - hLow)
  }

  /** The index from the four refractivities, as computed from the M values
      and the three gradients.  It is minus the sum of the three N gradients,
      less 3 * 0.157: the height terms of M contribute exactly 0.471. */
  function IndexFromN(n2m: real, n100: real, n925: real, n850: real): (index: real)
    ensures index
         == -(Gradient(n2m, n100, H2m, H100) + Gradient(n100, n925, H100, H925) + Gradient(n925, n850, H925, H850))
            - 0.471
  {
    var m2m := ModifiedN(n2m, H2m);
    var m100 := ModifiedN(n100, H100);
    var m925 := ModifiedN(n925, H925);
    var m850 := ModifiedN(n850, H850);
    var grad1 := Gradient(m2m, m100, H2m, H100);
    var grad2 := Gradient(m100, m925, H100, H925);
    var grad3 := Gradient(m925, m850, H925, H850);
    -(grad1 + grad2 + grad3)
  }

  /** Refractivity of one profile level. */
  function LevelN(exp: real -> real, l: Level): Result<real> {
    RefractivityN(exp, l.temp, l.pressure, l.rh)
  }

  /** Every level of the profile lies off the two poles of the formula. */
  predicate ProfileInDomain(w: Weather) {
    forall l :: l in Profile(w) ==> InDomain(l.temp)
  }

  /** `compute_tropo_index(weather)`: the index, or the ZeroDivisionError that
      refractivity raises at some level. */
  function ComputeTropoIndex(exp: real -> real, w: Weather): (r: Result<real>)
    ensures r.Ok? <==> ProfileInDomain(w)
  {
    var p := Profile(w);
    var n2m := LevelN(exp, p[0]);
    var n100 := LevelN(exp, p[1]);
    var n925 := LevelN(exp, p[2]);
    var n850 := LevelN(exp, p[3]);
    if n2m.Ok? && n100.Ok? && n925.Ok? && n850.Ok? then
      Ok(IndexFromN(n2m.value, n100.value, n925.value, n850.value))
    else
      ZeroDivisionError
  }

  /** With a total exponential, the index fails for exactly eight surface
      temperatures: those that put some level at -273.15 or -243.12 degrees C. */
  lemma FailingTemperatures(exp: real -> real, w: Weather)
    ensures ComputeTropoIndex(exp, w).ZeroDivisionError? <==>
      w.t2m in {-273.15, -272.5, -267.65, -263.15, -243.12, -242.47, -237.62, -233.12}
  {
  }

  /** The height term adds exactly 0.157 to every gradient of M, whatever the
      two heights. */
  lemma GradientOfModified(nLow: real, nHigh: real, hLow: real, hHigh: real)
    requires hLow < hHigh
    ensures Gradient(ModifiedN(nLow, hLow), ModifiedN(nHigh, hHigh), hLow, hHigh)
         == Gradient(nLow, nHigh, hLow, hHigh) + HeightCoeff
  {
  }

  /** The index as a fixed weighted sum of the four refractivities: it rises
      with the surface value, falls with the 850 hPa value, and the weights sum
      to zero. */
  lemma IndexWeightedSum(n2m: real, n100: real, n925: real, n850: real)
    ensures IndexFromN(n2m, n100, n925, n850)
         == n2m / 98.0 + n100 * (1.0 / 600.0 - 1.0 / 98.0) + n925 * (1.0 / 750.0 - 1.0 / 600.0) - n850 / 750.0
            - 0.471
  {
  }

  /** Adding the same amount to every level's refractivity leaves the index
      unchanged; in particular a profile with uniform N has index -0.471. */
  lemma IndexShiftInvariant(n2m: real, n100: real, n925: real, n850: real, c: real)
    ensures IndexFromN(n2m + c, n100 + c, n925 + c, n850 + c) == IndexFromN(n2m, n100, n925, n850)
    ensures IndexFromN(c, c, c, c) == -0.471
  {
  }

  /** `compute_tropo_index` in closed form: whenever it succeeds, its value is
      minus the sum of the N gradients of the profile, less 0.471. */
  lemma ComputeTropoIndexClosedForm(exp: real -> real, w: Weather)
    requires ProfileInDomain(w)
    ensures var p := Profile(w);
      var n0, n1, n2, n3 := LevelN(exp, p[0]).value, LevelN(exp, p[1]).value, LevelN(exp, p[2]).value, LevelN(exp, p[3]).value;
      ComputeTropoIndex(exp, w) == Ok(-((n1 - n0) / 98.0 + (n2 - n1) / 600.0 + (n3 - n2) / 750.0) - 0.471)
  {
  }
}
