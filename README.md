# Tropospheric propagation alert — Dafny model

This project models the decision logic of `dapnet_tropo_alert_final.py`. The
script estimates tropospheric ducting potential over one fixed location from
the current surface weather. It turns that estimate into one of four alert
tiers. When the estimate is high enough, it sends a short paging message.

The model covers four pieces:

- **Refractivity** (`refractivity.dfy`, module `Refractivity`): the radio
  refractivity N = 77.6·P/T + 3.73e5·e/T² of `refractivity_N`. It is written
  over reals. The exponential inside the Magnus vapour-pressure formula is a
  parameter `exp: real -> real`, so no numeric value of N is assumed. The
  ZeroDivisionError that Python raises at T = 0 K or at t = −243.12 °C is a
  `Result` value.
- **Index** (`tropo_index.dfy`, module `TropoIndex`): `compute_tropo_index`.
  It builds the fixed four-level synthetic profile at 2, 100, 700 and 1450 m.
  The temperatures are t2m − 0, 0.65, 5.5 and 10 °C. The pressures are p, p,
  925 and 850 hPa, and every level has the same humidity. Each level gets
  N and M = N + 0.157·h. Three gradients of M are taken, and the index is minus
  their sum.
- **Classifier** (`alert_level.dfy`, module `Alert`): `alert_level`. It has the
  four ordered tiers Faible < Moyenne < Bonne < Forte/DX, cut at 2, 4 and 6.
- **Run** (`alert_run.dfy`, module `AlertRun`): `main`. It returns early when
  the weather fetch fails. It aborts when the index computation raises. A
  message is sent only when the index is at least `TROPO_MIN_LEVEL` = 2.0. A
  delivery failure is caught, and the run still ends normally.

A zero divisor in `refractivity_N` raises ZeroDivisionError. `main` does not
catch it, so the run ends with no message sent. The model records this as
`Run.Aborted`.

## Model

| member | source | states |
|---|---|---|
| Refractivity.RefractivityN | dapnet_tropo_alert_final.py:54-59 | in the exact-real model with a total exp, N is defined exactly when the temperature is neither −273.15 °C (T = 0 K) nor −243.12 °C (the pole of the Magnus exponent); otherwise Python's ZeroDivisionError is returned |
| Refractivity.PositiveRefractivity | dapnet_tropo_alert_final.py:54-59 | for any positive exponential, above absolute zero and off the Magnus pole, with positive pressure and non-negative humidity, N is defined and positive |
| Refractivity.PressureMonotone | dapnet_tropo_alert_final.py:56-59 | above absolute zero, with the temperature and humidity held fixed, a higher pressure gives a strictly higher N |
| TropoIndex.Profile | dapnet_tropo_alert_final.py:64-73 | the synthetic profile has four levels at strictly increasing heights, so every gradient divides by a positive height difference, and every level carries the surface humidity |
| TropoIndex.ProfileShape | dapnet_tropo_alert_final.py:64-73 | the synthetic profile has four levels with strictly increasing height and strictly decreasing temperature; the temperatures are t2m, t2m−0.65, t2m−5.5 and t2m−10; the pressures are p, p, 925 and 850; every level has the surface humidity |
| TropoIndex.ComputeTropoIndex | dapnet_tropo_alert_final.py:62-98 | the index is computed exactly when every profile level lies in the refractivity domain; otherwise the ZeroDivisionError propagates |
| TropoIndex.FailingTemperatures | dapnet_tropo_alert_final.py:65-78 | in the exact-real model with a total exp, the index computation fails for exactly eight surface temperatures, the ones that put some level at −273.15 or −243.12 °C |
| TropoIndex.GradientOfModified | dapnet_tropo_alert_final.py:80-87 | for any two distinct heights, the height term of M adds exactly 0.157 to the finite-difference gradient |
| TropoIndex.IndexFromN | dapnet_tropo_alert_final.py:80-89 | the index, computed from the M values and their three gradients, equals minus the sum of the three N gradients, minus 0.471 (= 3·0.157) |
| TropoIndex.IndexWeightedSum | dapnet_tropo_alert_final.py:80-89 | the index is the fixed linear combination N2m/98 + N100·(1/600 − 1/98) + N925·(1/750 − 1/600) − N850/750 − 0.471 of the four refractivities |
| TropoIndex.IndexShiftInvariant | dapnet_tropo_alert_final.py:80-89 | adding the same amount to all four refractivities leaves the index unchanged, and a uniform-N profile has index −0.471 |
| TropoIndex.ComputeTropoIndexClosedForm | dapnet_tropo_alert_final.py:62-98 | whenever the computation succeeds, its value is −((N100−N2m)/98 + (N925−N100)/600 + (N850−N925)/750) − 0.471 over the profile's refractivities |
| Alert.AlertLevel | dapnet_tropo_alert_final.py:101-109 | the index lies in the band of the tier it gets, and that tier is the only one whose band contains the index |
| Alert.BandsExact | dapnet_tropo_alert_final.py:102-109 | an index gets a tier exactly when it lies in that tier's band: below 2 Faible, [2,4) Moyenne, [4,6) Bonne, 6 and above Forte/DX; every index lies in its tier's band |
| Alert.RankCountsThresholds | dapnet_tropo_alert_final.py:101-109 | a tier's rank in Faible < Moyenne < Bonne < Forte/DX equals the number of the thresholds 2, 4, 6 that the index has reached |
| Alert.ReachedMonotone | dapnet_tropo_alert_final.py:102-108 | a larger index reaches at least as many thresholds |
| Alert.AlertMonotone | dapnet_tropo_alert_final.py:101-109 | a larger index never gets a lower tier |
| Alert.TiersDistinct | dapnet_tropo_alert_final.py:103-109 | distinct tiers have distinct ranks and distinct labels |
| AlertRun.ShouldSend | dapnet_tropo_alert_final.py:146 | the send gate `tindex >= TROPO_MIN_LEVEL` holds exactly when the tier of the index is not Faible |
| AlertRun.GateMatchesTier | dapnet_tropo_alert_final.py:101-109 | the send gate (index ≥ `TROPO_MIN_LEVEL` = 2.0, lines 25 and 146) holds exactly when the tier ranks at Moyenne or above |
| AlertRun.RunAlert | dapnet_tropo_alert_final.py:131-153 | a failed fetch ends the run with nothing computed or sent; an index that raises aborts the run; otherwise the run records the computed index and its tier, a send is attempted if and only if the index is ≥ 2.0, delivery succeeds only if attempted and accepted, and a message that is sent never carries Faible |

## Left out

- `fetch_weather` (HTTP GET and JSON parsing) is external I/O. The run takes its outcome as a `Fetch` value. The 1013.25 hPa and 70 % defaults are part of the `Weather` value passed in.
- `send_dapnet_message` (authenticated HTTP POST) is external I/O. The run takes only whether the gateway accepts the message (`deliveryOk`).
- `build_message` depends on Python float formatting (`:.1f` rounding, float `repr`), which has no faithful counterpart here. The run records the tier that the message embeds.
- `log` and every log call (console and file output with wall-clock timestamps) are left out.
- The configuration constants with coordinates, credentials, callsigns and transmitter groups are plain data with no behaviour.
- The exponential is a parameter, so no numeric value of N or of the index is pinned. IEEE-754 rounding, overflow in `exp` and NaN or infinite inputs are not modelled; all arithmetic is over exact reals. The eight failing temperatures are therefore exact real values. Under float rounding, the set of inputs that hit a zero divisor may differ.
- Refractivity.RefractivityN and TropoIndex.FailingTemperatures: `math.exp` raises OverflowError once its argument exceeds about 709.78, which happens for a level temperature in about (−249.31, −243.12) °C. So the program raises for every t2m in about (−249.31, −233.12) °C, while the model, whose exponential is total, fails only at the eight exact pole temperatures.
- Refractivity: the model proves no property that depends on the shape of the wet term (for example, that N is affine in the humidity). Such properties would need non-linear real arithmetic, which the solver does not handle reliably.
