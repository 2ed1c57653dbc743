/** The `backward` command (cmd/backward.go): the inspection of `forward`,
    a step to the previous column and one single-field update. */
module Backward {
  import opened Errors
  import opened Az
  import opened Board
  import opened Render
  import opened Forward
  import opened Picker

  /** `backward [id]`: the column update moves to the previous column of
      the item given, or of the one picked. */
  method BackwardCmd(c: Client, cols: Columns, args: seq<string>, usePO: bool, pick: seq<Choice> -> Result<string>)
    returns (r: Result<Printed>, ghost trace: seq<seq<string>>, ghost found: Result<Spot>)
    requires |args| <= 1
    modifies c`attempts, c`echoed, c`calls
    ensures c.Ran(old(c.attempts), old(c.echoed), old(c.calls), trace)
    ensures |args| == 1 ==> Moved(c, cols.order, false, "Item stepped back", args[0], trace, found, r)
    ensures |args| == 0 ==> PickMoved(c, cols.order, false, "Item stepped back", usePO, pick, trace, found, r)
  {
    if |args| == 1 {
      r, trace, found := MoveCmd(c, cols, false, "Item stepped back", args[0]);
    } else {
      r, trace, found := MovePicked(c, cols, false, "Item stepped back", usePO, pick);
    }
  }
}
