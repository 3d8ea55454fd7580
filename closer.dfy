/** The position closer: every open position is closed each cycle, in the
    order the positions table lists them. */
module PositionCloser {
  import opened Domain

  /** The confirmation dialog of a close offers the opposite side: closing a
      long is confirmed on the "SHORT" button and vice versa. */
  function ConfirmationLabel(side: Side): (text: string)
    ensures text == side.Opposite().Label()
    ensures text != side.Label()
  {
    if side == Long then "SHORT" else "LONG"
  }

  /** One close per position, in listing order. */
  function CloseActions(positions: seq<Position>): (r: seq<Action>)
    ensures |r| == |positions|
    ensures forall i :: 0 <= i < |positions| ==>
      r[i] == Close(positions[i], ConfirmationLabel(positions[i].side))
  {
    if positions == [] then []
    else
      var last := positions[|positions| - 1];
      CloseActions(positions[..|positions| - 1]) + [Close(last, ConfirmationLabel(last.side))]
  }

  method CloseAll(positions: seq<Position>) returns (closes: seq<Action>)
    ensures closes == CloseActions(positions)
  {
    closes := [];
    for i := 0 to |positions|
      invariant closes == CloseActions(positions[..i])
    {
      var position := positions[i];
      assert positions[..i + 1][..i] == positions[..i];
      closes := closes + [Close(position, ConfirmationLabel(position.side))];
    }
    assert positions[..|positions|] == positions;
  }
}
