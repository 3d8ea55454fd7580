/** The bot's shipped configuration on concrete venue states. */
module DefaultScenarios {
  import opened Domain
  import opened Pricing
  import opened LadderReconciler

  /** Cold start with the ladder [6, 7, 8]: three longs at 6, 7 and 8 bps
      below the price, then three shorts at 6, 7 and 8 bps above it; at a
      price of 50000 the targets are 49970, 49965, 49960, 50030, 50035 and
      50040. */
  lemma DefaultColdStart()
    ensures Placements([], DefaultConfig) ==
      [Place(Long, 0.9994), Place(Long, 0.9993), Place(Long, 0.9992),
       Place(Short, 1.0006), Place(Short, 1.0007), Place(Short, 1.0008)]
    ensures var r := Placements([], DefaultConfig);
            |r| == 6 &&
            TargetPrice(50000.0, r[0].multiplier) == 49970.0 &&
            TargetPrice(50000.0, r[1].multiplier) == 49965.0 &&
            TargetPrice(50000.0, r[2].multiplier) == 49960.0 &&
            TargetPrice(50000.0, r[3].multiplier) == 50030.0 &&
            TargetPrice(50000.0, r[4].multiplier) == 50035.0 &&
            TargetPrice(50000.0, r[5].multiplier) == 50040.0
  {
    ColdStart([], DefaultConfig);
    var r := Placements([], DefaultConfig);
    assert r == [Place(Long, 0.9994), Place(Long, 0.9993), Place(Long, 0.9992),
                 Place(Short, 1.0006), Place(Short, 1.0007), Place(Short, 1.0008)];
    assert TargetPrice(50000.0, 0.9994) == 49970.0 && TargetPrice(50000.0, 0.9993) == 49965.0;
    assert TargetPrice(50000.0, 0.9992) == 49960.0 && TargetPrice(50000.0, 1.0006) == 50030.0;
    assert TargetPrice(50000.0, 1.0007) == 50035.0 && TargetPrice(50000.0, 1.0008) == 50040.0;
  }

  /** One long and three shorts resting: the long side is two short of the
      ladder's three, so two longs at the replacement distance (49970 at a
      price of 50000), no shorts. */
  lemma DefaultWarmTopUp()
    ensures var orders := [Order(Long, 49970.0, 1), Order(Short, 50030.0, 2),
                           Order(Short, 50035.0, 3), Order(Short, 50040.0, 4)];
            Placements(orders, DefaultConfig) == [Place(Long, 0.9994), Place(Long, 0.9994)]
  {
    var orders := [Order(Long, 49970.0, 1), Order(Short, 50030.0, 2),
                   Order(Short, 50035.0, 3), Order(Short, 50040.0, 4)];
    assert orders[..3] == [orders[0], orders[1], orders[2]];
    assert orders[..3][..2] == [orders[0], orders[1]];
    assert orders[..3][..2][..1] == [orders[0]];
    assert orders[..3][..2][..1][..0] == [];
    assert CountSide([orders[0]], Long) == 1 && CountSide([orders[0]], Short) == 0;
    assert CountSide([orders[0], orders[1]], Long) == 1 && CountSide([orders[0], orders[1]], Short) == 1;
    assert CountSide(orders[..3], Long) == 1 && CountSide(orders[..3], Short) == 2;
    assert CountSide(orders, Long) == 1;
    assert CountSide(orders, Short) == 3;
    assert Placements(orders, DefaultConfig) == TopUp(Long, DefaultConfig, 2) + TopUp(Short, DefaultConfig, 0);
  }

  /** Every distance the shipped configuration places at lies inside its
      band [1.5, 10], so a fresh order is not cancelled at an unchanged price. */
  lemma DefaultPlacementsStayInBand(orders: seq<Order>, current: real, a: Action, handle: nat)
    requires current > 0.0
    requires a in Placements(orders, DefaultConfig)
    ensures a.Place? && !Violates(Order(a.side, TargetPrice(current, a.multiplier), handle), current, DefaultConfig)
  {
    PlacementsStayInBand(orders, DefaultConfig, current, a, handle);
  }
}
