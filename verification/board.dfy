/** The Kanban column progression (internal/board/order.go).

    The package-level `ColumnOrder` slice is the `order` field of one
    `Columns` object. Stepping forward or backward looks up the first
    position holding the current column and moves one place. */
module Board {
  import opened Errors
  import opened Strs

  /** The built-in progression. */
  const DefaultColumns: seq<string> :=
    ["Backlog", "Ready for Development", "In Process", "Ready to Test", "In Test", "Deploy", "Done"]

  /** The Agile process's columns. */
  const AgileColumns: seq<string> := ["New", "Active", "Resolved", "Closed"]

  /** `NextColumn` as a function of the order. */
  function Next(order: seq<string>, c: string): Result<string>
  {
    var i := IndexOf(order, c);
    if i == |order| then Fail(UnknownColumn(c))
    else if i + 1 < |order| then Ok(order[i + 1])
    else Fail(LastColumn(c))
  }

  /** `PrevColumn` as a function of the order. */
  function Prev(order: seq<string>, c: string): Result<string>
  {
    var i := IndexOf(order, c);
    if i == |order| then Fail(UnknownColumn(c))
    else if i > 0 then Ok(order[i - 1])
    else Fail(FirstColumn(c))
  }

  /** The step forward succeeds exactly when `c` occurs before the last
      position, and yields the column right after its first occurrence; an
      absent column is unknown, and one found only at the end is the last. */
  lemma NextSpec(order: seq<string>, c: string)
    ensures c !in order ==> Next(order, c) == Fail(UnknownColumn(c))
    ensures c in order ==> Next(order, c) != Fail(UnknownColumn(c))
    ensures Next(order, c).Ok? <==> |order| > 0 && c in order[..|order| - 1]
    ensures Next(order, c).Ok? ==>
      exists i :: 0 <= i < |order| - 1 && order[i] == c && c !in order[..i] && Next(order, c).value == order[i + 1]
    ensures |order| > 0 && Distinct(order) && c == order[|order| - 1] ==> Next(order, c) == Fail(LastColumn(c))
  {
    var i := IndexOf(order, c);
    if c in order {
      var k :| 0 <= k < |order| && order[k] == c;
      assert i <= k;
    }
    if i < |order| {
      assert c !in order[..i];
      if i + 1 < |order| {
        assert order[..|order| - 1][i] == c;
      }
    }
    if |order| > 0 && c in order[..|order| - 1] {
      var k :| 0 <= k < |order| - 1 && order[..|order| - 1][k] == c;
      assert order[k] == c;
    }
  }

  /** The step backward succeeds exactly when `c` first occurs after the
      first position, and yields the column right before that occurrence. */
  lemma PrevSpec(order: seq<string>, c: string)
    ensures c !in order ==> Prev(order, c) == Fail(UnknownColumn(c))
    ensures c in order ==> Prev(order, c) != Fail(UnknownColumn(c))
    ensures Prev(order, c).Ok? <==> c in order && order[0] != c
    ensures Prev(order, c).Ok? ==>
      exists i :: 0 < i < |order| && order[i] == c && c !in order[..i] && Prev(order, c).value == order[i - 1]
    ensures |order| > 0 && c == order[0] ==> Prev(order, c) == Fail(FirstColumn(c))
  {
    var i := IndexOf(order, c);
    if c in order {
      var k :| 0 <= k < |order| && order[k] == c;
      assert i <= k;
    }
    if i < |order| {
      assert c !in order[..i];
    }
  }

  /** In an order without repeats, stepping forward and then back returns
      to the starting column. */
  lemma PrevOfNext(order: seq<string>, c: string)
    requires Distinct(order)
    requires Next(order, c).Ok?
    ensures Prev(order, Next(order, c).value) == Ok(c)
  {
    var i := IndexOf(order, c);
    var n := order[i + 1];
    assert IndexOf(order, n) == i + 1;
  }

  /** In an order without repeats, stepping back and then forward returns
      to the starting column. */
  lemma NextOfPrev(order: seq<string>, c: string)
    requires Distinct(order)
    requires Prev(order, c).Ok?
    ensures Next(order, Prev(order, c).value) == Ok(c)
  {
    var i := IndexOf(order, c);
    var p := order[i - 1];
    assert IndexOf(order, p) == i - 1;
  }

  /** A three-column progression: stepping inside it moves by one, and
      stepping off either end or from an unknown column fails. */
  lemma ThreeColumns(a: string, b: string, c: string, u: string)
    requires a != b && b != c && a != c
    requires u != a && u != b && u != c
    ensures Next([a, b, c], a) == Ok(b) && Next([a, b, c], b) == Ok(c)
    ensures Next([a, b, c], c) == Fail(LastColumn(c))
    ensures Prev([a, b, c], c) == Ok(b) && Prev([a, b, c], b) == Ok(a)
    ensures Prev([a, b, c], a) == Fail(FirstColumn(a))
    ensures Next([a, b, c], u) == Fail(UnknownColumn(u)) && Prev([a, b, c], u) == Fail(UnknownColumn(u))
  {
    var order := [a, b, c];
    assert order[0] == a && order[1] == b && order[2] == c;
  }

  /** The columns a comma-separated list names. */
  function ParseColumns(csv: string): seq<string>
  {
    NonBlank(Split(csv, ','))
  }

  /** Every named column is non-blank, already trimmed and free of commas,
      and there are no more columns than comma-separated parts. */
  lemma ParseColumnsWellFormed(csv: string)
    ensures |ParseColumns(csv)| <= |Split(csv, ',')|
    ensures forall k :: 0 <= k < |ParseColumns(csv)| ==>
      var col := ParseColumns(csv)[k];
      col != "" && TrimSpace(col) == col && ',' !in col
  {
    NonBlankWellFormed(Split(csv, ','), ',');
  }

  class Columns {
    var order: seq<string>

    /** The built-in progression, replaced by a non-blank `AB_COLUMNS` that
        names at least one column. */
    constructor (abColumns: string)
      ensures order == if TrimSpace(abColumns) != "" && ParseColumns(abColumns) != [] then ParseColumns(abColumns) else DefaultColumns
    {
      order := DefaultColumns;
      new;
      if TrimSpace(abColumns) != "" {
        var _ := SetColumnOrderFromCSV(abColumns);
      }
    }

    method SetDefaultAgileColumns()
      modifies this
      ensures order == AgileColumns
    {
      order := AgileColumns;
    }

    /** Replaces the order by the columns `csv` names; with none named the
        order is unchanged and an error is returned. */
    method SetColumnOrderFromCSV(csv: string) returns (err: Option<Error>)
      modifies this
      ensures ParseColumns(csv) == [] ==> err == Some(NoValidColumns) && order == old(order)
      ensures ParseColumns(csv) != [] ==> err == None && order == ParseColumns(csv)
    {
      var cols := SplitTrimmed(csv, ',');
      if |cols| == 0 {
        return Some(NoValidColumns);
      }
      order := cols;
      return None;
    }

    /** The linear first-match scan of `NextColumn`. */
    method NextColumn(cur: string) returns (r: Result<string>)
      ensures r == Next(order, cur)
    {
      var i := 0;
      while i < |order|
        invariant 0 <= i <= |order|
        invariant forall j :: 0 <= j < i ==> order[j] != cur
      {
        if order[i] == cur {
          if i + 1 < |order| {
            return Ok(order[i + 1]);
          }
          return Fail(LastColumn(cur));
        }
        i := i + 1;
      }
      return Fail(UnknownColumn(cur));
    }

    /** The linear first-match scan of `PrevColumn`. */
    method PrevColumn(cur: string) returns (r: Result<string>)
      ensures r == Prev(order, cur)
    {
      var i := 0;
      while i < |order|
        invariant 0 <= i <= |order|
        invariant forall j :: 0 <= j < i ==> order[j] != cur
      {
        if order[i] == cur {
          if i - 1 >= 0 {
            return Ok(order[i - 1]);
          }
          return Fail(FirstColumn(cur));
        }
        i := i + 1;
      }
      return Fail(UnknownColumn(cur));
    }
  }
}
