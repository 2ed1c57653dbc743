/** The `forward` command (cmd/forward.go): show the item, find its Kanban
    column, step to the next column and issue one single-field update. The
    inspection, the update and the promise are shared with `backward`. */
module Forward {
  import opened Errors
  import opened Json
  import opened Wi
  import opened Az
  import opened Board
  import opened Render
  import opened List
  import opened Picker

  /** The item's Kanban field and its non-empty current column. */
  datatype Spot = Spot(item: WorkItem, field: string, column: string)

  /** The outcome of showing item `id` and locating its column: show errors
      pass through, an undecodable item cannot be inspected, and a missing
      Kanban field or an empty column is an error. */
  ghost predicate Inspected(c: Client, id: string, r: Result<Spot>)
    reads c`mode, c`confirm, c`exec
  {
    var sh := ShownOf(c.Outcome(ShowArgs(id)));
    && (sh.Fail? ==> r == Fail(sh.error))
    && (sh.Ok? && sh.value.item.None? ==> r == Fail(UnableToInspect(id)))
    && (sh.Ok? && sh.value.item.Some? && !HasKanbanField(sh.value.item.value.fields) ==> r == Fail(KanbanFieldNotFound(id)))
    && (sh.Ok? && sh.value.item.Some? && r.Fail? ==> r.error == KanbanFieldNotFound(id))
    && (r.Ok? ==> sh.Ok? && sh.value.item == Some(r.value.item) &&
                  KanbanField(r.value.item.fields, r.value.field, r.value.column) && r.value.column != "")
  }

  method Inspect(c: Client, id: string) returns (r: Result<Spot>)
    modifies c`attempts, c`echoed, c`calls
    ensures c.Ran(old(c.attempts), old(c.echoed), old(c.calls), [ShowArgs(id)])
    ensures Inspected(c, id, r)
  {
    var shown := c.ShowWorkItem(id);
    if shown.Fail? {
      return Fail(shown.error);
    }
    if shown.value.item.None? {
      return Fail(UnableToInspect(id));
    }
    var item := shown.value.item.value;
    var colField, curCol := FindKanbanColumn(item.fields);
    if colField == "" || curCol == "" {
      return Fail(KanbanFieldNotFound(id));
    }
    return Ok(Spot(item, colField, curCol));
  }

  /** The update's error is returned unchanged; its output is printed. */
  ghost predicate Updated(c: Client, args: seq<string>, title: string, r: Result<Printed>)
    reads c`mode, c`confirm, c`exec
  {
    var out := c.Outcome(args);
    && (out.Fail? ==> r == Fail(out.error))
    && (out.Ok? ==> r.Ok? && PrintedAs(title, out.value, r.value))
  }

  /** Issues the column update and prints its result. */
  method Move(c: Client, id: string, spot: Spot, target: string, title: string)
    returns (r: Result<Printed>)
    modifies c`attempts, c`echoed, c`calls
    ensures c.Ran(old(c.attempts), old(c.echoed), old(c.calls), [UpdateArgs(id, map[spot.field := target], [spot.field])])
    ensures Updated(c, UpdateArgs(id, map[spot.field := target], [spot.field]), title, r)
  {
    var fields := map[spot.field := target];
    var raw, order := c.UpdateWorkItemFields(id, fields);
    KeyOrderSingleton(spot.field, target, order);
    if raw.Fail? {
      return Fail(raw.error);
    }
    var p := Display(title, raw.value);
    return Ok(p);
  }

  /** The state machine's step: forward to the next column or back to the
      previous one. */
  function Step(order: seq<string>, forward: bool, column: string): Result<string>
  {
    if forward then Next(order, column) else Prev(order, column)
  }

  /** After the inspection found `spot`: a step failure is returned and
      issues nothing; otherwise exactly one update, carrying only the
      Kanban field set to the column the step yields. */
  ghost predicate Stepped(c: Client, order: seq<string>, forward: bool, title: string, id: string, spot: Spot,
                          trace: seq<seq<string>>, r: Result<Printed>)
    reads c`mode, c`confirm, c`exec
  {
    var s := Step(order, forward, spot.column);
    && (s.Fail? ==> r == Fail(s.error) && trace == [])
    && (s.Ok? ==>
          var upd := UpdateArgs(id, map[spot.field := s.value], [spot.field]);
          trace == [upd] && Updated(c, upd, title, r))
  }

  /** The step through the column order and the update it calls for. */
  method Advance(c: Client, cols: Columns, forward: bool, title: string, id: string, spot: Spot)
    returns (r: Result<Printed>, ghost trace: seq<seq<string>>)
    modifies c`attempts, c`echoed, c`calls
    ensures c.Ran(old(c.attempts), old(c.echoed), old(c.calls), trace)
    ensures Stepped(c, cols.order, forward, title, id, spot, trace, r)
  {
    var s;
    if forward {
      s := cols.NextColumn(spot.column);
    } else {
      s := cols.PrevColumn(spot.column);
    }
    if s.Fail? {
      c.Idle(c.attempts, c.echoed, c.calls);
      return Fail(s.error), [];
    }
    r := Move(c, id, spot, s.value, title);
    trace := [UpdateArgs(id, map[spot.field := s.value], [spot.field])];
  }

  /** What `forward` and `backward` promise: a show, then an update only
      when the inspection and the step both succeed. An inspection failure
      is returned and issues no update. */
  ghost predicate Moved(c: Client, order: seq<string>, forward: bool, title: string, id: string,
                        trace: seq<seq<string>>, found: Result<Spot>, r: Result<Printed>)
    reads c`mode, c`confirm, c`exec
  {
    && Inspected(c, id, found)
    && 1 <= |trace| && trace[0] == ShowArgs(id)
    && (found.Fail? ==> r == Fail(found.error) && |trace| == 1)
    && (found.Ok? ==> Stepped(c, order, forward, title, id, found.value, trace[1..], r))
  }

  /** The command body shared by `forward` and `backward`. */
  method MoveCmd(c: Client, cols: Columns, forward: bool, title: string, id: string)
    returns (r: Result<Printed>, ghost trace: seq<seq<string>>, ghost found: Result<Spot>)
    modifies c`attempts, c`echoed, c`calls
    ensures c.Ran(old(c.attempts), old(c.echoed), old(c.calls), trace)
    ensures Moved(c, cols.order, forward, title, id, trace, found, r)
  {
    ghost var a0, e0, c0 := c.attempts, c.echoed, c.calls;
    var inspected := Inspect(c, id);
    found := inspected;
    if inspected.Fail? {
      return Fail(inspected.error), [ShowArgs(id)], found;
    }
    ghost var a1, e1, c1 := c.attempts, c.echoed, c.calls;
    ghost var rest;
    r, rest := Advance(c, cols, forward, title, id, inspected.value);
    c.Chain(a0, e0, c0, [ShowArgs(id)], a1, e1, c1, rest, c.attempts, c.echoed, c.calls);
    trace := [ShowArgs(id)] + rest;
    assert trace[1..] == rest;
  }

  /** Without an id argument the command first picks one among the items
      that are not Closed: the listing comes first, a failed pick is
      returned with no further call, and a picked id is moved as a given
      one would be. */
  ghost predicate PickMoved(c: Client, order: seq<string>, forward: bool, title: string, usePO: bool,
                            pick: seq<Choice> -> Result<string>, trace: seq<seq<string>>, found: Result<Spot>,
                            r: Result<Printed>)
    reads c`mode, c`confirm, c`exec
  {
    var listing := QueryCalls(c.Runner(), "", false, usePO);
    var picked := Chosen(QueryResult(c.Runner(), "", false, usePO), ItemChoice, NoItemsToSelect, NoSelection, pick);
    && |trace| >= |listing| && trace[..|listing|] == listing
    && (picked.Fail? ==> trace == listing && r == Fail(picked.error))
    && (picked.Ok? ==> Moved(c, order, forward, title, picked.value, trace[|listing|..], found, r))
  }

  method MovePicked(c: Client, cols: Columns, forward: bool, title: string, usePO: bool,
                    pick: seq<Choice> -> Result<string>)
    returns (r: Result<Printed>, ghost trace: seq<seq<string>>, ghost found: Result<Spot>)
    modifies c`attempts, c`echoed, c`calls
    ensures c.Ran(old(c.attempts), old(c.echoed), old(c.calls), trace)
    ensures PickMoved(c, cols.order, forward, title, usePO, pick, trace, found, r)
  {
    ghost var a0, e0, c0 := c.attempts, c.echoed, c.calls;
    var id;
    id, trace := PickNonClosedID(c, usePO, pick);
    match id
    case Fail(e) =>
      r, found := Fail(e), Fail(e);
    case Ok(v) =>
      ghost var a1, e1, c1 := c.attempts, c.echoed, c.calls;
      ghost var rest;
      r, rest, found := MoveCmd(c, cols, forward, title, v);
      c.Chain(a0, e0, c0, trace, a1, e1, c1, rest, c.attempts, c.echoed, c.calls);
      assert (trace + rest)[..|trace|] == trace && (trace + rest)[|trace|..] == rest;
      trace := trace + rest;
  }

  /** `forward [id]`: the column update moves to the next column of the
      item given, or of the one picked. */
  method ForwardCmd(c: Client, cols: Columns, args: seq<string>, usePO: bool, pick: seq<Choice> -> Result<string>)
    returns (r: Result<Printed>, ghost trace: seq<seq<string>>, ghost found: Result<Spot>)
    requires |args| <= 1
    modifies c`attempts, c`echoed, c`calls
    ensures c.Ran(old(c.attempts), old(c.echoed), old(c.calls), trace)
    ensures |args| == 1 ==> Moved(c, cols.order, true, "Item pushed forward", args[0], trace, found, r)
    ensures |args| == 0 ==> PickMoved(c, cols.order, true, "Item pushed forward", usePO, pick, trace, found, r)
  {
    if |args| == 1 {
      r, trace, found := MoveCmd(c, cols, true, "Item pushed forward", args[0]);
    } else {
      r, trace, found := MovePicked(c, cols, true, "Item pushed forward", usePO, pick);
    }
  }
}
