// Failure-compatible result types used by the registry operations.
module Wrappers {
  datatype Result<+T, +E> = Ok(value: T) | Err(error: E)
  datatype Outcome<+E> = Pass | Fail(error: E)
  datatype Option<+T> = None | Some(value: T)
}

/** The link cost model: the fixed cable table and the priced candidate link
    that `add_possible_connection` builds for a pair of locations. */
module Cables {
  import opened Wrappers

  /** Locations are identified by their registered name. */
  type Name = string

  /** Charge per unit of distance for installing any cable, whatever its type. */
  const InstallationRate: real := 20.0

  datatype CableSpec = CableSpec(costPerMeter: real, bandwidth: nat, reliability: real)

  /** One candidate link, as the record appended to `possible_connections`. */
  datatype Candidate = Candidate(
    loc1: Name,
    loc2: Name,
    distance: real,
    cableType: string,
    cost: real,
    bandwidth: nat,
    reliability: real)

  datatype ConnectionError =
    | UnknownLocation(name: Name)      // a missing key in `locations`
    | UnknownCableType(cableType: string)  // a missing key in the cable table

  /** The two-entry cable table; any other type name is a missing key. */
  function SpecOf(cableType: string): (r: Option<CableSpec>)
    ensures r.Some? <==> cableType == "fiber" || cableType == "copper"
    ensures r.Some? ==> r.value.costPerMeter > 0.0 && 0.0 < r.value.reliability < 1.0
  {
    if cableType == "fiber" then Some(CableSpec(100.0, 10000, 0.99))
    else if cableType == "copper" then Some(CableSpec(50.0, 1000, 0.95))
    else None
  }

  /** A candidate is priced according to the table: its cost is its distance
      times the cable's own rate plus the installation rate, and bandwidth and
      reliability are those of its cable type. */
  ghost predicate Priced(c: Candidate)
  {
    && c.distance >= 0.0
    && SpecOf(c.cableType).Some?
    && c.cost == c.distance * SpecOf(c.cableType).value.costPerMeter + c.distance * InstallationRate
    && c.bandwidth == SpecOf(c.cableType).value.bandwidth
    && c.reliability == SpecOf(c.cableType).value.reliability
  }

  /** Prices the link between `loc1` and `loc2` over the given distance. */
  function PriceLink(loc1: Name, loc2: Name, distance: real, cableType: string): (r: Result<Candidate, ConnectionError>)
    requires distance >= 0.0
    ensures r.Err? <==> cableType != "fiber" && cableType != "copper"
    ensures r.Err? ==> r.error == UnknownCableType(cableType)
    ensures r.Ok? ==> Priced(r.value)
    ensures r.Ok? ==> r.value.loc1 == loc1 && r.value.loc2 == loc2
                      && r.value.distance == distance && r.value.cableType == cableType
    ensures r.Ok? && cableType == "fiber" ==>
              r.value.cost == 120.0 * distance && r.value.bandwidth == 10000 && r.value.reliability == 0.99
    ensures r.Ok? && cableType == "copper" ==>
              r.value.cost == 70.0 * distance && r.value.bandwidth == 1000 && r.value.reliability == 0.95
    ensures r.Ok? ==> r.value.cost >= 0.0
  {
    match SpecOf(cableType)
    case None => Err(UnknownCableType(cableType))
    case Some(spec) =>
      var baseCost := distance * spec.costPerMeter;
      var installationCost := distance * InstallationRate;
      Ok(Candidate(loc1, loc2, distance, cableType, baseCost + installationCost, spec.bandwidth, spec.reliability))
  }

  /** `d` is the straight-line distance between two coordinate pairs: the
      non-negative square root of the sum of the squared differences. */
  ghost predicate IsDistance(p: (real, real), q: (real, real), d: real)
  {
    d >= 0.0 && d * d == (p.0 - q.0) * (p.0 - q.0) + (p.1 - q.1) * (p.1 - q.1)
  }

  /** The distance is determined by the two points: there is only one
      non-negative square root. */
  lemma DistanceDetermined(p: (real, real), q: (real, real), d1: real, d2: real)
    requires IsDistance(p, q, d1) && IsDistance(p, q, d2)
    ensures d1 == d2
  {
    if d1 < d2 {
      SquareMonotone(d1, d2);
    } else if d2 < d1 {
      SquareMonotone(d2, d1);
    }
  }

  lemma SquareMonotone(a: real, b: real)
    requires 0.0 <= a < b
    ensures a * a < b * b
  {
    assert a * (b - a) >= 0.0;
    assert a * (b - a) == a * b - a * a;
    assert (b - a) * b > 0.0;
    assert (b - a) * b == b * b - a * b;
  }

  /** A longer link of the same cable type never costs less. */
  lemma CostMonotoneInDistance(c1: Candidate, c2: Candidate)
    requires Priced(c1) && Priced(c2) && c1.cableType == c2.cableType
    requires c1.distance <= c2.distance
    ensures c1.cost <= c2.cost
  {
    var rate := SpecOf(c1.cableType).value.costPerMeter + InstallationRate;
    assert c1.cost == c1.distance * rate;
    assert c2.cost == c2.distance * rate;
  }

  /** Over the same distance, fiber never costs less than copper. */
  lemma FiberNeverCheaper(f: Candidate, k: Candidate)
    requires Priced(f) && Priced(k) && f.cableType == "fiber" && k.cableType == "copper"
    requires f.distance == k.distance
    ensures k.cost <= f.cost
    ensures f.cost == 120.0 * f.distance && k.cost == 70.0 * k.distance
  {
  }
}
