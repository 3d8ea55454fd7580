/** Entities of the limit-order bot: sides, the venue snapshots it reads each
    cycle, the mutations it issues and its configuration. */
module Domain {

  datatype Option<T> = None | Some(value: T)

  /** The two sides of the book, 'long' and 'short' in the venue's listings. */
  datatype Side = Long | Short {

    function Opposite(): (o: Side)
      ensures o != this
    {
      if Long? then Short else Long
    }

    /** The side's name in upper case, as the venue writes it on its buttons. */
    function Label(): (text: string)
    {
      if Long? then "LONG" else "SHORT"
    }
  }

  /** A resting order as read from the open-orders table; the cancel button
      is an opaque handle. */
  datatype Order = Order(side: Side, price: real, cancelHandle: nat)

  /** An open position as read from the positions table; the close button is
      an opaque handle. */
  datatype Position = Position(side: Side, closeHandle: nat)

  /** One mutation issued to the venue. */
  datatype Action =
    | Close(position: Position, confirmLabel: string)  // click close, then the confirmation button with this label
    | Cancel(order: Order)                              // click the order's cancel button
    | Place(side: Side, multiplier: real)              // limit order at (price sampled then) x multiplier

  /** The bot's configuration, fixed for the life of the process. */
  datatype Config = Config(
    quantity: real,
    symbol: string,
    bpsLadder: seq<real>,
    replacementBps: real,
    minDistanceBps: real,
    maxDistanceBps: real,
    maxLoops: int,          // 0 or less: no bound on the number of cycles
    useIndicators: bool,
    atrChangeThreshold: real,
    maxAtr: real)

  /** The values the bot ships with. */
  const DefaultConfig: Config := Config(
    quantity := 0.001,
    symbol := "btc-usd",
    bpsLadder := [6.0, 7.0, 8.0],
    replacementBps := 6.0,
    minDistanceBps := 1.5,
    maxDistanceBps := 10.0,
    maxLoops := 1000,
    useIndicators := true,
    atrChangeThreshold := 2.0,
    maxAtr := 20.0)

  /** Everything one cycle reads from the venue, in the order it reads it.
      `atr` is read only when the volatility gate is enabled; `refreshedOrders`
      is the second read of the open orders, made only after a cancellation. */
  datatype Snapshot = Snapshot(
    atr: Option<real>,
    positions: seq<Position>,
    orders: seq<Order>,
    price: Option<real>,
    refreshedOrders: seq<Order>)

  function Abs(x: real): (r: real)
    ensures r >= 0.0 && (r == x || r == -x)
  {
    if x < 0.0 then -x else x
  }

  function Max(a: int, b: int): (r: int)
    ensures r >= a && r >= b && (r == a || r == b)
  {
    if a < b then b else a
  }
}
