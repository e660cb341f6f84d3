/** The alert classifier (`alert_level`): four ordered tiers cut at the
    thresholds 2, 4 and 6 of the propagation index. */
module Alert {

  /** The alert tiers, lowest first. */
  datatype Tier = Faible | Moyenne | Bonne | ForteDX {

    /** Position in the order Faible < Moyenne < Bonne < Forte/DX. */
    function Rank(): nat {
      match this
      case Faible => 0
      case Moyenne => 1
      case Bonne => 2
      case ForteDX => 3
    }

    /** The label the tier carries in the message. */
    function Name(): string {
      match this
      case Faible => "Faible"
      case Moyenne => "Moyenne"
      case Bonne => "Bonne"
      case ForteDX => "Forte/DX"
    }
  }

  /** The tier thresholds, ascending. */
  const Thresholds: seq<real> := [2.0, 4.0, 6.0]

  /** `alert_level(tindex)`. */
  function AlertLevel(tindex: real): (tier: Tier)
    ensures InBand(tindex, tier)
    ensures forall t: Tier :: InBand(tindex, t) ==> t == tier
  {
    if tindex < 2.0 then Faible
    else if tindex < 4.0 then Moyenne
    else if tindex < 6.0 then Bonne
    else ForteDX
  }

  /** How many of the thresholds in `ts` the index has reached. */
  function Reached(ts: seq<real>, tindex: real): (k: nat)
    ensures k <= |ts|
  {
    if ts == [] then 0
    else (if ts[0] <= tindex then 1 else 0) + Reached(ts[1..], tindex)
  }

  /** Reaching thresholds is monotone: a larger index reaches at least as many. */
  lemma {:induction false} ReachedMonotone(ts: seq<real>, t1: real, t2: real)
    requires t1 <= t2
    ensures Reached(ts, t1) <= Reached(ts, t2)
  {
    if ts != [] {
      ReachedMonotone(ts[1..], t1, t2);
    }
  }

  /** The tier's rank is the number of thresholds the index has reached. */
  lemma RankCountsThresholds(tindex: real)
    ensures AlertLevel(tindex).Rank() == Reached(Thresholds, tindex)
  {
    var above6 := if 6.0 <= tindex then 1 else 0;
    assert [6.0][1..] == [];
    assert Reached([6.0], tindex) == above6;
    assert [4.0, 6.0][1..] == [6.0];
    assert Reached([4.0, 6.0], tindex) == (if 4.0 <= tindex then 1 else 0) + above6;
    assert Thresholds[1..] == [4.0, 6.0];
  }

  /** A larger index never gets a lower tier. */
  lemma AlertMonotone(t1: real, t2: real)
    requires t1 <= t2
    ensures AlertLevel(t1).Rank() <= AlertLevel(t2).Rank()
  {
    RankCountsThresholds(t1);
    RankCountsThresholds(t2);
    ReachedMonotone(Thresholds, t1, t2);
  }

  /** The half-open band of the index that each tier covers. */
  predicate InBand(tindex: real, tier: Tier) {
    match tier
    case Faible => tindex < 2.0
    case Moyenne => 2.0 <= tindex < 4.0
    case Bonne => 4.0 <= tindex < 6.0
    case ForteDX => 6.0 <= tindex
  }

  /** The bands are exact: an index gets a tier exactly when it lies in that
      tier's band, and the bands cover every index with no overlap. */
  lemma BandsExact(tindex: real, tier: Tier)
    ensures AlertLevel(tindex) == tier <==> InBand(tindex, tier)
    ensures InBand(tindex, AlertLevel(tindex))
  {
  }

  /** Distinct tiers carry distinct ranks and distinct labels. */
  lemma TiersDistinct(a: Tier, b: Tier)
    ensures a.Rank() == b.Rank() <==> a == b
    ensures a.Name() == b.Name() <==> a == b
  {
  }
}
