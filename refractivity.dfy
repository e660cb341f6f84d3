/** Radio refractivity N of moist air (`refractivity_N`).

    N = 77.6 * P / T + 3.73e5 * e / T^2, with T the temperature in kelvin and
    e the partial pressure of water vapour from a Magnus-type formula.  The
    exponential is not modelled numerically: every function that needs it takes
    it as a parameter `exp: real -> real`, so nothing here depends on its values.
    Python raises ZeroDivisionError when a divisor is zero; that is the one
    error case the model keeps, and it is returned as a value.  The
    OverflowError that `math.exp` raises near the Magnus pole is not modelled. */
module Refractivity {

  /** Offset from degrees Celsius to kelvin. */
  const KelvinOffset: real := 273.15
  /** Magnus coefficients: e_sat = 6.112 * exp(17.62 * t / (243.12 + t)) hPa. */
  const MagnusE0: real := 6.112
  const MagnusA: real := 17.62
  const MagnusB: real := 243.12
  /** Dry and wet coefficients of the refractivity formula. */
  const DryCoeff: real := 77.6
  const WetCoeff: real := 3.73e5

  /** A computation that may divide by zero, as Python's float division does. */
  datatype Result<T> = Ok(value: T) | ZeroDivisionError

  /** The exponential is positive everywhere: the one fact about it that any
      statement here relies on. */
  ghost predicate ExpPositive(exp: real -> real) {
    forall x :: exp(x) > 0.0
  }

  /** Neither divisor of the formula is zero at this temperature (degrees C). */
  predicate InDomain(tempC: real) {
    tempC + KelvinOffset != 0.0 && MagnusB + tempC != 0.0
  }

  /** Partial pressure of water vapour (hPa) at relative humidity `rh` percent. */
  function VapourPressure(exp: real -> real, tempC: real, rh: real): real
    requires MagnusB + tempC != 0.0
  {
    rh / 100.0 * MagnusE0 * exp(MagnusA * tempC / (MagnusB + tempC))
  }

  /** Dry term 77.6 * P / T, T in kelvin. */
  function DryTerm(tempC: real, pressure: real): real
    requires tempC + KelvinOffset != 0.0
  {
    DryCoeff * (pressure / (tempC + KelvinOffset))
  }

  /** Wet term 3.73e5 * e / T^2. */
  function WetTerm(exp: real -> real, tempC: real, rh: real): real
    requires InDomain(tempC)
  {
    var t := tempC + KelvinOffset;
    WetCoeff * (VapourPressure(exp, tempC, rh) / (t * t))
  }

  /** `refractivity_N(temp_C, pressure_hPa, humidity_percent)` with a total
      exponential: fails exactly at the two temperatures where a divisor
      vanishes. */
  function RefractivityN(exp: real -> real, tempC: real, pressure: real, rh: real): (r: Result<real>)
    ensures r.Ok? <==> tempC != -273.15 && tempC != -243.12
  {
    if !InDomain(tempC) then ZeroDivisionError
    else Ok(DryTerm(tempC, pressure) + WetTerm(exp, tempC, rh))
  }

  /** With a positive exponential, a physical atmosphere (above absolute zero,
      off the Magnus pole, positive pressure, non-negative humidity) has
      positive refractivity. */
  lemma PositiveRefractivity(exp: real -> real, tempC: real, pressure: real, rh: real)
    requires ExpPositive(exp)
    requires InDomain(tempC) && tempC > -KelvinOffset && pressure > 0.0 && rh >= 0.0
    ensures RefractivityN(exp, tempC, pressure, rh).Ok?
    ensures RefractivityN(exp, tempC, pressure, rh).value > 0.0
  {
  }

  /** At a fixed temperature and humidity, higher pressure gives higher N
      whenever T is above absolute zero. */
  lemma PressureMonotone(exp: real -> real, tempC: real, p1: real, p2: real, rh: real)
    requires InDomain(tempC) && tempC > -KelvinOffset && p1 < p2
    ensures RefractivityN(exp, tempC, p1, rh).value < RefractivityN(exp, tempC, p2, rh).value
  {
  }
}
