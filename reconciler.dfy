/** The ladder reconciler: on a cold start the whole ladder is placed on both
    sides; otherwise each side is topped up to the ladder's length with
    orders at the single replacement distance. */
module LadderReconciler {
  import opened Domain
  import opened Pricing

  /** Number of orders on `side`. */
  function CountSide(orders: seq<Order>, side: Side): (n: nat)
    ensures n <= |orders|
    ensures n == 0 <==> forall i :: 0 <= i < |orders| ==> orders[i].side != side
    ensures n == |orders| <==> forall i :: 0 <= i < |orders| ==> orders[i].side == side
  {
    if orders == [] then 0
    else CountSide(orders[..|orders| - 1], side) + (if orders[|orders| - 1].side == side then 1 else 0)
  }

  /** Every order is on one side or the other. */
  lemma {:induction false} CountSidesPartition(orders: seq<Order>)
    ensures CountSide(orders, Long) + CountSide(orders, Short) == |orders|
  {
    if orders != [] {
      CountSidesPartition(orders[..|orders| - 1]);
    }
  }

  /** Number of placements on `side` among `actions`. */
  function PlacedOn(actions: seq<Action>, side: Side): (n: nat)
    ensures n <= |actions|
  {
    if actions == [] then 0
    else
      var last := actions[|actions| - 1];
      PlacedOn(actions[..|actions| - 1], side) + (if last.Place? && last.side == side then 1 else 0)
  }

  lemma {:induction false} PlacedOnAppend(xs: seq<Action>, ys: seq<Action>, side: Side)
    ensures PlacedOn(xs + ys, side) == PlacedOn(xs, side) + PlacedOn(ys, side)
    decreases |ys|
  {
    if ys == [] {
      assert xs + ys == xs;
    } else {
      assert (xs + ys)[..|xs + ys| - 1] == xs + ys[..|ys| - 1];
      PlacedOnAppend(xs, ys[..|ys| - 1], side);
    }
  }

  /** Orders still wanted on a side that holds `have` of `target`. */
  function Deficit(target: int, have: nat): (d: nat)
    ensures have + d == Max(target, have)
  {
    if target > have then target - have else 0
  }

  /** One placement per rung, in ladder order. */
  function LadderPlacements(side: Side, ladder: seq<real>): (r: seq<Action>)
    ensures |r| == |ladder|
    ensures forall i :: 0 <= i < |ladder| ==> r[i] == Place(side, Multiplier(side, ladder[i]))
  {
    if ladder == [] then []
    else LadderPlacements(side, ladder[..|ladder| - 1]) + [Place(side, Multiplier(side, ladder[|ladder| - 1]))]
  }

  /** `count` placements on `side`, all at the replacement distance. */
  function TopUp(side: Side, cfg: Config, count: nat): (r: seq<Action>)
    ensures |r| == count
    ensures forall a :: a in r ==> a == Place(side, Multiplier(side, cfg.replacementBps))
  {
    seq(count, _ => Place(side, Multiplier(side, cfg.replacementBps)))
  }

  /** The placements issued for the order list the reconciler sees. */
  function Placements(orders: seq<Order>, cfg: Config): (r: seq<Action>)
    // the reconciler only places
    ensures forall a :: a in r ==> a.Place?
    // two full ladders on a cold start, the two deficits otherwise
    ensures |orders| == 0 ==> |r| == 2 * |cfg.bpsLadder|
    ensures |orders| > 0 ==>
      |r| == Deficit(|cfg.bpsLadder|, CountSide(orders, Long)) + Deficit(|cfg.bpsLadder|, CountSide(orders, Short))
  {
    var n := |cfg.bpsLadder|;
    if |orders| == 0 then
      LadderPlacements(Long, cfg.bpsLadder) + LadderPlacements(Short, cfg.bpsLadder)
    else
      TopUp(Long, cfg, Deficit(n, CountSide(orders, Long))) +
      TopUp(Short, cfg, Deficit(n, CountSide(orders, Short)))
  }

  lemma {:induction false} PlacedOnLadder(side: Side, other: Side, ladder: seq<real>)
    ensures PlacedOn(LadderPlacements(side, ladder), other) == if side == other then |ladder| else 0
  {
    if ladder != [] {
      var init := ladder[..|ladder| - 1];
      PlacedOnLadder(side, other, init);
      assert LadderPlacements(side, ladder)[..|ladder| - 1] == LadderPlacements(side, init);
    }
  }

  lemma {:induction false} PlacedOnTopUp(side: Side, other: Side, cfg: Config, count: nat)
    ensures PlacedOn(TopUp(side, cfg, count), other) == if side == other then count else 0
  {
    if count > 0 {
      PlacedOnTopUp(side, other, cfg, count - 1);
      assert TopUp(side, cfg, count)[..count - 1] == TopUp(side, cfg, count - 1);
    }
  }

  /** Cold start: the full ladder on the long side, then on the short side,
      rung by rung in ladder order. */
  lemma ColdStart(orders: seq<Order>, cfg: Config)
    requires |orders| == 0
    ensures var r := Placements(orders, cfg);
            var n := |cfg.bpsLadder|;
            |r| == 2 * n &&
            (forall i :: 0 <= i < n ==> r[i] == Place(Long, 1.0 - cfg.bpsLadder[i] / 10000.0)) &&
            (forall i :: 0 <= i < n ==> r[n + i] == Place(Short, 1.0 + cfg.bpsLadder[i] / 10000.0))
  {
    var n := |cfg.bpsLadder|;
    var r := Placements(orders, cfg);
    var longs := LadderPlacements(Long, cfg.bpsLadder);
    var shorts := LadderPlacements(Short, cfg.bpsLadder);
    assert r == longs + shorts;
    forall i | 0 <= i < n
      ensures r[n + i] == Place(Short, 1.0 + cfg.bpsLadder[i] / 10000.0)
    {
      assert r[n + i] == shorts[i];
    }
  }

  /** Warm top-up: the missing longs, then the missing shorts, every one at
      the replacement distance. */
  lemma WarmTopUp(orders: seq<Order>, cfg: Config)
    requires |orders| > 0
    ensures var r := Placements(orders, cfg);
            var longs := Deficit(|cfg.bpsLadder|, CountSide(orders, Long));
            var shorts := Deficit(|cfg.bpsLadder|, CountSide(orders, Short));
            |r| == longs + shorts &&
            (forall i :: 0 <= i < longs ==> r[i] == Place(Long, 1.0 - cfg.replacementBps / 10000.0)) &&
            (forall i :: longs <= i < |r| ==> r[i] == Place(Short, 1.0 + cfg.replacementBps / 10000.0))
  {
    var r := Placements(orders, cfg);
    var longs := Deficit(|cfg.bpsLadder|, CountSide(orders, Long));
    var shorts := Deficit(|cfg.bpsLadder|, CountSide(orders, Short));
    var lp := TopUp(Long, cfg, longs);
    var sp := TopUp(Short, cfg, shorts);
    assert r == lp + sp;
    forall i | 0 <= i < longs
      ensures r[i] == Place(Long, 1.0 - cfg.replacementBps / 10000.0)
    {
      assert r[i] == lp[i] && lp[i] in lp;
    }
    forall i | longs <= i < |r|
      ensures r[i] == Place(Short, 1.0 + cfg.replacementBps / 10000.0)
    {
      assert r[i] == sp[i - longs] && sp[i - longs] in sp;
    }
  }

  /** After placement every side holds at least the ladder's length: exactly
      that many when it held fewer, and what it held otherwise (an over-full
      side is never reduced). */
  lemma {:induction false} RestoresCount(orders: seq<Order>, cfg: Config, side: Side)
    ensures CountSide(orders, side) + PlacedOn(Placements(orders, cfg), side) ==
      Max(|cfg.bpsLadder|, CountSide(orders, side))
  {
    var n := |cfg.bpsLadder|;
    if |orders| == 0 {
      PlacedOnAppend(LadderPlacements(Long, cfg.bpsLadder), LadderPlacements(Short, cfg.bpsLadder), side);
      PlacedOnLadder(Long, side, cfg.bpsLadder);
      PlacedOnLadder(Short, side, cfg.bpsLadder);
    } else {
      var dl := Deficit(n, CountSide(orders, Long));
      var ds := Deficit(n, CountSide(orders, Short));
      PlacedOnAppend(TopUp(Long, cfg, dl), TopUp(Short, cfg, ds), side);
      PlacedOnTopUp(Long, side, cfg, dl);
      PlacedOnTopUp(Short, side, cfg, ds);
    }
  }

  /** A non-empty ladder already full on both sides gets no placements. */
  lemma AtTargetPlacesNothing(orders: seq<Order>, cfg: Config)
    requires |orders| > 0
    requires CountSide(orders, Long) >= |cfg.bpsLadder| && CountSide(orders, Short) >= |cfg.bpsLadder|
    ensures Placements(orders, cfg) == []
  {
  }

  /** When every rung and the replacement distance lie inside the band, no
      order the reconciler places would be cancelled by the next distance
      check at the price it was placed from. */
  lemma PlacementsStayInBand(orders: seq<Order>, cfg: Config, current: real, a: Action, handle: nat)
    requires current > 0.0 && 0.0 <= cfg.minDistanceBps
    requires forall i :: 0 <= i < |cfg.bpsLadder| ==>
      cfg.minDistanceBps <= cfg.bpsLadder[i] <= cfg.maxDistanceBps
    requires cfg.minDistanceBps <= cfg.replacementBps <= cfg.maxDistanceBps
    requires a in Placements(orders, cfg)
    ensures a.Place? && !Violates(Order(a.side, TargetPrice(current, a.multiplier), handle), current, cfg)
  {
    var bps := PlacedDistance(orders, cfg, a);
    if bps != cfg.replacementBps {
      var k :| 0 <= k < |cfg.bpsLadder| && bps == cfg.bpsLadder[k];
    }
    assert cfg.minDistanceBps <= bps <= cfg.maxDistanceBps;
    PlacedInBandIsKept(Order(a.side, TargetPrice(current, a.multiplier), handle), bps, current, cfg);
  }

  /** The distance at which a placement was made: a rung on a cold start,
      the replacement distance on a top-up. */
  lemma PlacedDistance(orders: seq<Order>, cfg: Config, a: Action) returns (bps: real)
    requires a in Placements(orders, cfg)
    ensures a.Place? && a.multiplier == Multiplier(a.side, bps)
    ensures bps == cfg.replacementBps || exists k :: 0 <= k < |cfg.bpsLadder| && bps == cfg.bpsLadder[k]
  {
    var r := Placements(orders, cfg);
    var n := |cfg.bpsLadder|;
    var i :| 0 <= i < |r| && r[i] == a;
    if |orders| == 0 {
      var longs := LadderPlacements(Long, cfg.bpsLadder);
      var shorts := LadderPlacements(Short, cfg.bpsLadder);
      assert r == longs + shorts;
      if i < n {
        assert a == longs[i];
        bps := cfg.bpsLadder[i];
      } else {
        assert a == shorts[i - n];
        bps := cfg.bpsLadder[i - n];
      }
    } else {
      var lp := TopUp(Long, cfg, Deficit(n, CountSide(orders, Long)));
      var sp := TopUp(Short, cfg, Deficit(n, CountSide(orders, Short)));
      assert r == lp + sp;
      assert a in lp || a in sp;
      bps := cfg.replacementBps;
    }
  }

  method Reconcile(finalOrders: seq<Order>, cfg: Config) returns (places: seq<Action>)
    ensures places == Placements(finalOrders, cfg)
  {
    var ladder := cfg.bpsLadder;
    places := [];
    if |finalOrders| == 0 {
      for i := 0 to |ladder|
        invariant places == LadderPlacements(Long, ladder[..i])
      {
        assert ladder[..i + 1][..i] == ladder[..i];
        places := places + [Place(Long, Multiplier(Long, ladder[i]))];
      }
      assert ladder[..|ladder|] == ladder;
      ghost var longs := places;
      for i := 0 to |ladder|
        invariant places == longs + LadderPlacements(Short, ladder[..i])
      {
        assert ladder[..i + 1][..i] == ladder[..i];
        places := places + [Place(Short, Multiplier(Short, ladder[i]))];
      }
    } else {
      var neededLongs := |ladder| - CountSide(finalOrders, Long);
      if neededLongs > 0 {
        var multiplier := Multiplier(Long, cfg.replacementBps);
        for i := 0 to neededLongs
          invariant places == TopUp(Long, cfg, i)
        {
          places := places + [Place(Long, multiplier)];
        }
      }
      ghost var longs := places;
      var neededShorts := |ladder| - CountSide(finalOrders, Short);
      if neededShorts > 0 {
        var multiplier := Multiplier(Short, cfg.replacementBps);
        for i := 0 to neededShorts
          invariant places == longs + TopUp(Short, cfg, i)
        {
          places := places + [Place(Short, multiplier)];
        }
      }
    }
  }
}
