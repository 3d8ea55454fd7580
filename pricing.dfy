/** Basis-point arithmetic: the price multiplier of a new order and the
    distance of a resting order from the current price. */
module Pricing {
  import opened Domain

  /** Multiplier applied to the sampled price for an order `bps` basis points
      away: below the price for a long, above it for a short. */
  function Multiplier(side: Side, bps: real): (m: real)
    ensures Abs(m - 1.0) * 10000.0 == Abs(bps)
    ensures bps > 0.0 ==> (m < 1.0 <==> side == Long)
  {
    if side == Long then 1.0 - bps / 10000.0 else 1.0 + bps / 10000.0
  }

  /** The price an order is placed at: the price sampled at placement times
      the multiplier (before rounding to cents). */
  function TargetPrice(current: real, multiplier: real): (price: real)
  {
    current * multiplier
  }

  /** The value of a floating-point distance: division by a zero price gives
      +infinity, or NaN when the order price is zero as well. */
  datatype Distance = Finite(bps: real) | Infinite | NotANumber

  /** |price - current| / current x 10000. */
  function BpsDistance(price: real, current: real): (d: Distance)
    // a non-zero price gives the finite distance d with d x current == |price - current| x 10000
    ensures current != 0.0 ==> d.Finite? && d.bps * current == Abs(price - current) * 10000.0
    // a positive price gives a distance that is never negative
    ensures current > 0.0 ==> d.bps >= 0.0
    // a zero price gives NaN exactly when the order price is zero as well
    ensures current == 0.0 ==> !d.Finite? && (d.NotANumber? <==> price == 0.0)
  {
    if current == 0.0 then
      (if price == 0.0 then NotANumber else Infinite)
    else
      Finite(Abs(price - current) / current * 10000.0)
  }

  /** Too far (above the maximum) or too close (below the minimum). Infinity
      is above every maximum and below no minimum; NaN compares false. */
  predicate OutOfBand(d: Distance, minBps: real, maxBps: real)
  {
    match d
    case Finite(b) => b > maxBps || b < minBps
    case Infinite => true
    case NotANumber => false
  }

  /** The canceller's test for one resting order. */
  predicate Violates(o: Order, current: real, cfg: Config)
    // division-free form of the test at a positive price
    ensures current > 0.0 ==>
      (Violates(o, current, cfg) <==>
        Abs(o.price - current) * 10000.0 > cfg.maxDistanceBps * current ||
        Abs(o.price - current) * 10000.0 < cfg.minDistanceBps * current)
  {
    if current > 0.0 then
      DistanceCompare(Abs(o.price - current), current, cfg.maxDistanceBps);
      DistanceCompare(Abs(o.price - current), current, cfg.minDistanceBps);
      OutOfBand(BpsDistance(o.price, current), cfg.minDistanceBps, cfg.maxDistanceBps)
    else
      OutOfBand(BpsDistance(o.price, current), cfg.minDistanceBps, cfg.maxDistanceBps)
  }

  /** Comparing a bps distance with a threshold, without the division. */
  lemma DistanceCompare(gap: real, c: real, k: real)
    requires c > 0.0
    ensures gap / c * 10000.0 > k <==> gap * 10000.0 > k * c
    ensures gap / c * 10000.0 < k <==> gap * 10000.0 < k * c
  {
    var d := gap / c * 10000.0;
    assert d * c == gap * 10000.0;
    ScaleByPositive(d, c, k);
  }

  /** Comparisons survive multiplication by a positive price. */
  lemma ScaleByPositive(x: real, c: real, k: real)
    requires c > 0.0
    ensures x > k <==> x * c > k * c
    ensures x < k <==> x * c < k * c
  {
    assert x * c - k * c == (x - k) * c;
  }

  /** An order placed at `bps` from a positive price sits exactly `bps` away
      from that price: the multiplier and the distance are inverse. */
  lemma PlacedAtDistance(side: Side, bps: real, current: real)
    requires current > 0.0 && bps >= 0.0
    ensures BpsDistance(TargetPrice(current, Multiplier(side, bps)), current) == Finite(bps)
  {
    var q := bps / 10000.0;
    var p := TargetPrice(current, Multiplier(side, bps));
    assert p - current == (if side == Long then -q else q) * current;
    assert q * current >= 0.0;
    assert Abs(p - current) == q * current;
    CancelFactor(q, current);
  }

  /** Multiplying by a non-zero price and dividing by it again is the identity. */
  lemma CancelFactor(x: real, c: real)
    requires c != 0.0
    ensures x * c / c == x
  {
  }

  /** An order placed at a distance inside the band is not cancelled while
      the price stays where it was sampled. */
  lemma PlacedInBandIsKept(o: Order, bps: real, current: real, cfg: Config)
    requires current > 0.0 && bps >= 0.0
    requires cfg.minDistanceBps <= bps <= cfg.maxDistanceBps
    requires o.price == TargetPrice(current, Multiplier(o.side, bps))
    ensures !Violates(o, current, cfg)
  {
    var side := o.side;
    PlacedAtDistance(side, bps, current);
  }

  /** With a zero price every order is cancelled except one priced at zero. */
  lemma ZeroPriceCancels(o: Order, cfg: Config)
    ensures Violates(o, 0.0, cfg) <==> o.price != 0.0
  {
  }
}
