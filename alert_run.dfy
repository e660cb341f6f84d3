/** One run of the alert script (`main`): fetch the weather, compute the index
    and its tier, and send the message only when the index reaches the
    configured minimum.  The weather fetch and the message delivery are
    external; their outcomes come in as parameters. */
module AlertRun {
  import opened Refractivity
  import opened TropoIndex
  import opened Alert

  /** Minimum index for which a message is sent. */
  const TropoMinLevel: real := 2.0

  /** Outcome of the weather fetch: a record, or an exception (network, HTTP
      status or JSON error). */
  datatype Fetch = Fetched(weather: Weather) | FetchFailed

  /** How a run ends.  NoWeather: the fetch failed, nothing was computed.
      Aborted: refractivity divided by zero and the uncaught exception ended
      the run before any message.  Finished: the index and its tier were
      computed; `attempted` says whether the message was handed to the paging
      gateway and `delivered` whether that delivery succeeded. */
  datatype Run =
    | NoWeather
    | Aborted
    | Finished(index: real, tier: Tier, attempted: bool, delivered: bool)

  /** The send gate: a message goes out exactly when the tier is above Faible. */
  function ShouldSend(tindex: real): (send: bool)
    ensures send <==> AlertLevel(tindex) != Faible
  {
    tindex >= TropoMinLevel
  }

  /** The gate agrees with the order of the tiers: a message goes out exactly
      when the tier ranks at Moyenne or above. */
  lemma GateMatchesTier(tindex: real)
    ensures ShouldSend(tindex) <==> AlertLevel(tindex).Rank() >= Moyenne.Rank()
  {
  }

  /** `main()`: `exp` is the exponential, `fetched` the result of the weather
      fetch and `deliveryOk` whether the gateway would accept the message. */
  method RunAlert(exp: real -> real, fetched: Fetch, deliveryOk: bool) returns (run: Run)
    ensures run.NoWeather? <==> fetched.FetchFailed?
    ensures fetched.Fetched? ==> (run.Aborted? <==> !ProfileInDomain(fetched.weather))
    ensures run.Finished? ==>
      && fetched.Fetched?
      && ComputeTropoIndex(exp, fetched.weather) == Ok(run.index)
      && run.tier == AlertLevel(run.index)
      && run.attempted == ShouldSend(run.index)
      && run.delivered == (run.attempted && deliveryOk)
    ensures run.Finished? && run.attempted ==> run.tier != Faible
  {
    var weather: Weather;
    match fetched {
      case FetchFailed =>
        return NoWeather;
      case Fetched(w) =>
        weather := w;
    }
    var tindex := ComputeTropoIndex(exp, weather);
    if tindex.ZeroDivisionError? {
      return Aborted;
    }
    var level := AlertLevel(tindex.value);
    if tindex.value >= TropoMinLevel {
      // A delivery failure is caught and logged; the run still ends normally.
      run := Finished(tindex.value, level, true, deliveryOk);
    } else {
      run := Finished(tindex.value, level, false, false);
    }
  }
}
