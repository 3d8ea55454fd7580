/** The distance canceller: resting orders outside the band around the
    current price are cancelled, in listing order. */
module DistanceCanceller {
  import opened Domain
  import opened Pricing

  /** The cancellations issued for `orders` at price `current`. */
  function Cancellations(orders: seq<Order>, current: real, cfg: Config): (r: seq<Action>)
    ensures |r| <= |orders|
    ensures forall a :: a in r ==> a.Cancel? && a.order in orders && Violates(a.order, current, cfg)
  {
    if orders == [] then []
    else
      var last := orders[|orders| - 1];
      Cancellations(orders[..|orders| - 1], current, cfg) +
        (if Violates(last, current, cfg) then [Cancel(last)] else [])
  }

  /** Cancellation follows listing order: the cancellations of a
      concatenation are those of its parts, one after the other. */
  lemma {:induction false} CancellationsAppend(xs: seq<Order>, ys: seq<Order>, current: real, cfg: Config)
    ensures Cancellations(xs + ys, current, cfg) == Cancellations(xs, current, cfg) + Cancellations(ys, current, cfg)
    decreases |ys|
  {
    if ys == [] {
      assert xs + ys == xs;
    } else {
      var init := ys[..|ys| - 1];
      assert (xs + ys)[..|xs + ys| - 1] == xs + init;
      CancellationsAppend(xs, init, current, cfg);
    }
  }

  /** An order is cancelled exactly when it is listed and out of band. */
  lemma {:induction false} CancelledExactly(orders: seq<Order>, current: real, cfg: Config, o: Order)
    ensures Cancel(o) in Cancellations(orders, current, cfg) <==> o in orders && Violates(o, current, cfg)
  {
    if orders != [] {
      var init := orders[..|orders| - 1];
      CancelledExactly(init, current, cfg, o);
      assert orders == init + [orders[|orders| - 1]];
    }
  }

  /** Something is cancelled exactly when some listed order is out of band. */
  lemma {:induction false} CancelledAny(orders: seq<Order>, current: real, cfg: Config)
    ensures |Cancellations(orders, current, cfg)| > 0 <==>
      exists i :: 0 <= i < |orders| && Violates(orders[i], current, cfg)
  {
    if orders != [] {
      var init := orders[..|orders| - 1];
      CancelledAny(init, current, cfg);
      if exists i :: 0 <= i < |init| && Violates(init[i], current, cfg) {
        var i :| 0 <= i < |init| && Violates(init[i], current, cfg);
        assert orders[i] == init[i];
      }
      if exists i :: 0 <= i < |orders| && Violates(orders[i], current, cfg) {
        var i :| 0 <= i < |orders| && Violates(orders[i], current, cfg);
        if i < |init| {
          assert init[i] == orders[i];
        }
      }
    }
  }

  method CancelOutOfBand(orders: seq<Order>, current: real, cfg: Config)
    returns (cancels: seq<Action>, ordersCancelled: bool)
    ensures cancels == Cancellations(orders, current, cfg)
    ensures ordersCancelled <==> exists i :: 0 <= i < |orders| && Violates(orders[i], current, cfg)
  {
    cancels := [];
    ordersCancelled := false;
    for i := 0 to |orders|
      invariant cancels == Cancellations(orders[..i], current, cfg)
      invariant ordersCancelled <==> exists k :: 0 <= k < i && Violates(orders[k], current, cfg)
    {
      var order := orders[i];
      assert orders[..i + 1][..i] == orders[..i];
      if Violates(order, current, cfg) {
        cancels := cancels + [Cancel(order)];
        ordersCancelled := true;
      }
    }
    assert orders[..|orders|] == orders;
  }
}
