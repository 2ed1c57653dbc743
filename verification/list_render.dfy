/** The markdown the listing commands build (cmd/list.go): tables of work
    items whose rows keep the query's order, with pipes in titles escaped
    and the signed-in user's active items in bold; the children listing
    sorts its rows by id, highest first. The terminal rendering of the
    markdown is not part of this model. */
module ListRender {
  import opened Errors
  import opened Strs
  import opened Json
  import opened Wi
  import opened Az
  import opened Render

  const NoItems := "No work-items found.\n"
  const ItemsHeading := "# Work Items\n\n"
  const TypedHeader := "| ID | Type | State | Assignee | Title |\n|---:|:-----|:------|:---------|:------|\n"
  const UntypedHeader := "| ID | State | Assignee | Title |\n|---:|:------|:---------|:------|\n"
  const ParentHeader := "| ID | Column/State | Assignee | Title |\n|---:|:-------------|:---------|:------|\n"
  const UnknownParent := "|(unknown)| | | |\n\n"

  /** The display name the renderers compare assignees with; a failed
      lookup is ignored and reads as "". */
  function Me(name: Result<string>): string
  {
    if name.Ok? then name.value else ""
  }

  /** A row is bold exactly for an active item assigned to the signed-in
      user, whose name must be known. */
  predicate Mine(state: string, assignee: string, me: string)
  {
    state == "Active" && assignee == me && me != ""
  }

  /** The cells, each wrapped in `**` when `bold`. */
  function Strong(cells: seq<string>, bold: bool): (r: seq<string>)
    ensures |r| == |cells|
    ensures forall i :: 0 <= i < |cells| ==> r[i] == if bold then "**" + cells[i] + "**" else cells[i]
  {
    if |cells| == 0 then []
    else Strong(cells[..|cells| - 1], bold) + [if bold then "**" + cells[|cells| - 1] + "**" else cells[|cells| - 1]]
  }

  /** `| c1 | c2 | ... |` and a newline. */
  function TableRow(cells: seq<string>, bold: bool): string
  {
    "| " + Join(Strong(cells, bold), " | ") + " |\n"
  }

  /** The cells of an item's row: id, the type when `typed`, state,
      assignee and the escaped title. */
  function Cells(it: QueryItem, typed: bool): (cells: seq<string>)
    ensures |cells| == if typed then 5 else 4
    ensures cells[0] == IntToString(it.id)
    ensures cells[|cells| - 1] == EscapePipes(FieldString(it.fields, "System.Title"))
  {
    [IntToString(it.id)] + (if typed then [FieldString(it.fields, "System.WorkItemType")] else []) +
    [FieldString(it.fields, "System.State"), AssigneeDisplay(it.fields), EscapePipes(FieldString(it.fields, "System.Title"))]
  }

  predicate Bold(it: QueryItem, me: string)
  {
    Mine(FieldString(it.fields, "System.State"), AssigneeDisplay(it.fields), me)
  }

  function ItemRow(it: QueryItem, typed: bool, me: string): string
  {
    TableRow(Cells(it, typed), Bold(it, me))
  }

  /** The texts `f` gives the elements of `xs`, one after another. */
  function Concat<T>(xs: seq<T>, f: T -> string): string
  {
    if |xs| == 0 then "" else Concat(xs[..|xs| - 1], f) + f(xs[|xs| - 1])
  }

  /** The text of a concatenation is the text of each part, in turn. */
  lemma {:induction false} ConcatAppend<T>(a: seq<T>, b: seq<T>, f: T -> string)
    ensures Concat(a + b, f) == Concat(a, f) + Concat(b, f)
    decreases |b|
  {
    if |b| == 0 {
      assert a + b == a;
    } else {
      var b' := b[..|b| - 1];
      assert (a + b)[..|a + b| - 1] == a + b';
      ConcatAppend(a, b', f);
    }
  }

  function RowOf(typed: bool, me: string): QueryItem -> string
  {
    it => ItemRow(it, typed, me)
  }

  /** The rows of `items`, one after another in the same order. */
  function Rows(items: seq<QueryItem>, typed: bool, me: string): string
  {
    Concat(items, RowOf(typed, me))
  }

  /** Rows keep the input order: one row per item, the rows of a
      concatenation being the rows of each part in turn. */
  lemma RowsInOrder(a: seq<QueryItem>, b: seq<QueryItem>, it: QueryItem, typed: bool, me: string)
    ensures Rows([], typed, me) == ""
    ensures Rows([it], typed, me) == ItemRow(it, typed, me)
    ensures Rows(a + b, typed, me) == Rows(a, typed, me) + Rows(b, typed, me)
  {
    ConcatAppend(a, b, RowOf(typed, me));
    assert [it][..0] == [];
  }

  /** A decimal number never starts with `*`. */
  lemma DecimalStart(n: int)
    ensures |IntToString(n)| > 0 && IntToString(n)[0] != '*'
  {
    if n < 0 {
      assert IntToString(n)[0] == '-';
    } else {
      assert '0' <= NatToString(n)[0] <= '9';
    }
  }

  /** A row is bold, its first cell opening with `**`, exactly when the
      item is active and assigned to the known signed-in user. */
  lemma RowBold(it: QueryItem, typed: bool, me: string)
    ensures |ItemRow(it, typed, me)| > 4
    ensures ItemRow(it, typed, me)[2] == '*' <==> Bold(it, me)
    ensures me == "" ==> !Bold(it, me)
  {
    var cells := Cells(it, typed);
    var strong := Strong(cells, Bold(it, me));
    DecimalStart(it.id);
    JoinStartsWith(strong, " | ");
    assert ItemRow(it, typed, me)[2] == Join(strong, " | ")[0];
    if Bold(it, me) {
      assert strong[0][0] == '*';
    }
  }

  /** The first element starts a join of several elements. */
  lemma JoinStartsWith(parts: seq<string>, sep: string)
    requires |parts| > 0 && |parts[0]| > 0
    ensures |Join(parts, sep)| > 0 && Join(parts, sep)[0] == parts[0][0]
  {
  }

  /** The listing `renderItems` builds; no items is a fixed message. */
  function Listing(items: seq<QueryItem>, me: string): string
  {
    if |items| == 0 then ItemsHeading + NoItems
    else ItemsHeading + TypedHeader + Rows(items, true, me)
  }

  /** The listing `renderItemsTypeLess` builds under `heading`, "Work
      Items" when blank; with no items it is the same fixed message as
      `renderItems`, whatever the heading. */
  function TypeLessListing(items: seq<QueryItem>, heading: string, me: string): string
  {
    if |items| == 0 then ItemsHeading + NoItems
    else "# " + (if heading == "" then "Work Items" else heading) + "\n\n" + UntypedHeader + Rows(items, false, me)
  }

  /** The row loop shared by the renderers: appends each element's text
      to the buffer, in order. */
  method WriteAll<T>(buf: string, xs: seq<T>, f: T -> string) returns (md: string)
    ensures md == buf + Concat(xs, f)
  {
    md := buf;
    var i := 0;
    while i < |xs|
      invariant 0 <= i <= |xs|
      invariant md == buf + Concat(xs[..i], f)
    {
      assert xs[..i + 1][..i] == xs[..i];
      md := md + f(xs[i]);
      i := i + 1;
    }
    assert xs[..|xs|] == xs;
  }

  method WriteRows(buf: string, items: seq<QueryItem>, typed: bool, me: string) returns (md: string)
    ensures md == buf + Rows(items, typed, me)
  {
    md := WriteAll(buf, items, RowOf(typed, me));
  }

  /** The signed-in user's name, asked for only when there are rows. */
  method UserName(c: Client) returns (me: string)
    modifies c`attempts, c`echoed, c`calls
    ensures c.Ran(old(c.attempts), old(c.echoed), old(c.calls), [SignedInUserArgs("displayName")])
    ensures me == Me(TrimmedText(c.Outcome(SignedInUserArgs("displayName"))))
  {
    var name := c.CurrentUserDisplayName();
    me := if name.Ok? then name.value else "";
  }

  /** `renderItems`: no items gives the fixed message without asking for
      the user; otherwise one lookup of the user and the table. */
  method RenderItems(c: Client, items: seq<QueryItem>) returns (md: string, ghost trace: seq<seq<string>>)
    modifies c`attempts, c`echoed, c`calls
    ensures c.Ran(old(c.attempts), old(c.echoed), old(c.calls), trace)
    ensures |items| == 0 ==> trace == [] && md == ItemsHeading + NoItems
    ensures |items| > 0 ==>
      trace == [SignedInUserArgs("displayName")] &&
      md == Listing(items, Me(TrimmedText(c.Outcome(SignedInUserArgs("displayName")))))
  {
    if |items| == 0 {
      c.Idle(c.attempts, c.echoed, c.calls);
      return ItemsHeading + NoItems, [];
    }
    var me := UserName(c);
    md := WriteRows(ItemsHeading + TypedHeader, items, true, me);
    trace := [SignedInUserArgs("displayName")];
  }

  /** `renderItemsTypeLess`. */
  method RenderItemsTypeLess(c: Client, items: seq<QueryItem>, heading: string)
    returns (md: string, ghost trace: seq<seq<string>>)
    modifies c`attempts, c`echoed, c`calls
    ensures c.Ran(old(c.attempts), old(c.echoed), old(c.calls), trace)
    ensures |items| == 0 ==> trace == [] && md == ItemsHeading + NoItems
    ensures |items| > 0 ==>
      trace == [SignedInUserArgs("displayName")] &&
      md == TypeLessListing(items, heading, Me(TrimmedText(c.Outcome(SignedInUserArgs("displayName")))))
  {
    if |items| == 0 {
      c.Idle(c.attempts, c.echoed, c.calls);
      return ItemsHeading + NoItems, [];
    }
    var title := heading;
    if title == "" {
      title := "Work Items";
    }
    var me := UserName(c);
    md := WriteRows("# " + title + "\n\n" + UntypedHeader, items, false, me);
    trace := [SignedInUserArgs("displayName")];
  }

  // ---- renderChildren ----

  /** The column and state cell: `col (state)` when the Kanban column is
      known, else the state alone. */
  function ColumnState(col: string, state: string): (s: string)
    ensures col == "" ==> s == state
    ensures col != "" ==> s == col + " (" + state + ")"
  {
    if col != "" then col + " (" + state + ")" else state
  }

  /** The parent's row followed by a blank line, bold as an item's row
      is, or a placeholder row when the parent is unknown. */
  function ParentSection(parent: Option<WorkItem>, col: string, me: string): string
  {
    match parent
    case None => UnknownParent
    case Some(p) =>
      var state := FieldString(p.fields, "System.State");
      var ass := AssigneeDisplay(p.fields);
      TableRow([IntToString(p.id), ColumnState(col, state), ass, EscapePipes(FieldString(p.fields, "System.Title"))],
               Mine(state, ass, me)) + "\n"
  }

  /** The children part: a fixed message when there are none, else the
      table of `sorted`. */
  function ChildrenSection(sorted: seq<QueryItem>, me: string): string
  {
    if |sorted| == 0 then NoItems else ItemsHeading + TypedHeader + Rows(sorted, true, me)
  }

  predicate ByIdDesc(items: seq<QueryItem>)
  {
    forall i, j :: 0 <= i < j < |items| ==> items[i].id >= items[j].id
  }

  /** `md` is what `renderChildren` builds for the parent and its
      children: the parent section under its header, then the children
      sorted by id, highest first; ties may come in either order. */
  ghost predicate ChildrenPage(parent: Option<WorkItem>, items: seq<QueryItem>, me: string, md: string)
  {
    exists col, sorted ::
      && (parent.Some? ==> KanbanValue(parent.value.fields, col))
      && ByIdDesc(sorted) && multiset(sorted) == multiset(items)
      && md == "# Parent\n\n" + ParentHeader + ParentSection(parent, col, me) + ChildrenSection(sorted, me)
  }

  /** The key of each element, in order. */
  function Keys<T>(xs: seq<T>, key: T -> int): (ks: seq<int>)
    ensures |ks| == |xs|
    ensures forall i :: 0 <= i < |xs| ==> ks[i] == key(xs[i])
  {
    if |xs| == 0 then [] else Keys(xs[..|xs| - 1], key) + [key(xs[|xs| - 1])]
  }

  /** The keys of a concatenation. */
  lemma KeysAppend<T>(u: seq<T>, v: seq<T>, key: T -> int)
    ensures Keys(u + v, key) == Keys(u, key) + Keys(v, key)
  {
    assert Keys(u + v, key) == Keys(u, key) + Keys(v, key);
  }

  /** Permuting the elements permutes their keys. */
  lemma {:induction false} KeysPermuted<T>(a: seq<T>, b: seq<T>, key: T -> int)
    requires multiset(a) == multiset(b)
    ensures multiset(Keys(a, key)) == multiset(Keys(b, key))
    decreases |a|
  {
    if |a| == 0 {
      assert |b| == |multiset(b)| == 0;
      return;
    }
    var x := a[0];
    assert x in multiset(b);
    var k :| 0 <= k < |b| && b[k] == x;
    var rest, left, right := a[1..], b[..k], b[k + 1..];
    assert a == [x] + rest;
    assert b == left + [x] + right;
    assert multiset(a) == multiset{x} + multiset(rest);
    assert multiset(b) == multiset{x} + multiset(left + right);
    Cancel(x, multiset(rest), multiset(left + right));
    KeysPermuted(rest, left + right, key);
    KeysMove(x, rest, left, right, key);
  }

  /** Moving one element keeps the multiset of keys. */
  lemma KeysMove<T>(x: T, rest: seq<T>, left: seq<T>, right: seq<T>, key: T -> int)
    requires multiset(Keys(rest, key)) == multiset(Keys(left + right, key))
    ensures multiset(Keys([x] + rest, key)) == multiset(Keys(left + [x] + right, key))
  {
    KeysAppend([x], rest, key);
    KeysAppend(left + [x], right, key);
    KeysAppend(left, [x], key);
    KeysAppend(left, right, key);
    var kx := [key(x)];
    assert Keys([x], key) == kx;
    assert multiset(Keys([x] + rest, key)) == multiset(kx) + multiset(Keys(rest, key));
    assert multiset(Keys(left + [x] + right, key)) == multiset(Keys(left, key)) + multiset(kx) + multiset(Keys(right, key));
  }

  /** Taking the same element from two equal multisets. */
  lemma Cancel<T>(x: T, m: multiset<T>, n: multiset<T>)
    requires multiset{x} + m == multiset{x} + n
    ensures m == n
  {
    forall y
      ensures m[y] == n[y]
    {
      assert (multiset{x} + m)[y] == (multiset{x} + n)[y];
    }
  }

  /** Two descending sequences of the same numbers are equal. */
  lemma {:induction false} DescendingUnique(p: seq<int>, q: seq<int>)
    requires forall i, j :: 0 <= i < j < |p| ==> p[i] >= p[j]
    requires forall i, j :: 0 <= i < j < |q| ==> q[i] >= q[j]
    requires multiset(p) == multiset(q)
    ensures p == q
    decreases |p|
  {
    assert |p| == |multiset(p)| == |q|;
    if |p| == 0 {
      return;
    }
    assert p[0] in multiset(q) && q[0] in multiset(p);
    var i :| 0 <= i < |q| && q[i] == p[0];
    var j :| 0 <= j < |p| && p[j] == q[0];
    assert j == 0 || p[0] >= p[j];
    assert i == 0 || q[0] >= q[i];
    var p', q' := p[1..], q[1..];
    assert p == [p[0]] + p';
    assert q == [q[0]] + q';
    Cancel(p[0], multiset(p'), multiset(q'));
    DescendingUnique(p', q');
  }

  function Id(it: QueryItem): int
  {
    it.id
  }

  /** The sort is not stable, yet the order of ids it yields is fully
      determined: every sorted permutation of the children lists the same
      ids in the same order. */
  lemma SortedIdsUnique(a: seq<QueryItem>, b: seq<QueryItem>)
    requires ByIdDesc(a) && ByIdDesc(b) && multiset(a) == multiset(b)
    ensures Keys(a, Id) == Keys(b, Id)
  {
    KeysPermuted(a, b, Id);
    DescendingUnique(Keys(a, Id), Keys(b, Id));
  }

  /** Exchanges two neighbours. */
  method Swap(a: array<QueryItem>, j: int)
    requires 0 < j < a.Length
    modifies a
    ensures a[..] == old(a[..])[j - 1 := old(a[j])][j := old(a[j - 1])]
    ensures multiset(a[..]) == multiset(old(a[..]))
  {
    a[j - 1], a[j] := a[j], a[j - 1];
  }

  /** Moves `a[i]` left past every smaller id, leaving `a[..i + 1]`
      sorted. */
  method Sink(a: array<QueryItem>, i: int)
    requires 0 <= i < a.Length
    requires forall p, q :: 0 <= p < q < i ==> a[p].id >= a[q].id
    modifies a
    ensures forall p, q :: 0 <= p < q <= i ==> a[p].id >= a[q].id
    ensures multiset(a[..]) == multiset(old(a[..]))
  {
    var j := i;
    while j > 0 && a[j - 1].id < a[j].id
      invariant 0 <= j <= i
      invariant forall p, q :: 0 <= p < q <= i && p != j && q != j ==> a[p].id >= a[q].id
      invariant forall q :: j < q <= i ==> a[j].id > a[q].id
      invariant multiset(a[..]) == multiset(old(a[..]))
    {
      Swap(a, j);
      j := j - 1;
    }
  }

  /** The in-place sort by id, highest first. */
  method SortByIdDesc(a: array<QueryItem>)
    modifies a
    ensures ByIdDesc(a[..])
    ensures multiset(a[..]) == multiset(old(a[..]))
  {
    var i := 0;
    while i < a.Length
      invariant 0 <= i <= a.Length
      invariant forall p, q :: 0 <= p < q < i ==> a[p].id >= a[q].id
      invariant multiset(a[..]) == multiset(old(a[..]))
    {
      Sink(a, i);
      i := i + 1;
    }
  }

  /** The slice `items` as an array, for sorting in place. */
  method ToArray(items: seq<QueryItem>) returns (a: array<QueryItem>)
    ensures fresh(a) && a[..] == items
  {
    a := new QueryItem[|items|](i requires 0 <= i < |items| => items[i]);
  }

  /** The parent's Kanban column value, "" without a parent. */
  method ParentColumn(parent: Option<WorkItem>) returns (col: string)
    ensures parent.Some? ==> KanbanValue(parent.value.fields, col)
  {
    col := "";
    if parent.Some? {
      var name, value := FindKanbanColumn(parent.value.fields);
      col := value;
    }
  }

  /** The children sorted by id, highest first. */
  method SortedChildren(items: seq<QueryItem>) returns (sorted: seq<QueryItem>)
    ensures ByIdDesc(sorted) && multiset(sorted) == multiset(items)
  {
    var a := ToArray(items);
    SortByIdDesc(a);
    sorted := a[..];
  }

  /** The children table under its heading. */
  method Table(sorted: seq<QueryItem>, me: string) returns (part: string)
    requires |sorted| > 0
    ensures part == ChildrenSection(sorted, me)
  {
    part := WriteRows(ItemsHeading + TypedHeader, sorted, true, me);
  }

  lemma PageWitness(parent: Option<WorkItem>, items: seq<QueryItem>, me: string, md: string,
                    col: string, sorted: seq<QueryItem>)
    requires parent.Some? ==> KanbanValue(parent.value.fields, col)
    requires ByIdDesc(sorted) && multiset(sorted) == multiset(items)
    requires md == "# Parent\n\n" + ParentHeader + ParentSection(parent, col, me) + ChildrenSection(sorted, me)
    ensures ChildrenPage(parent, items, me, md)
  {
  }

  /** `renderChildren`: always one lookup of the user, then the page. */
  method RenderChildren(c: Client, parent: Option<WorkItem>, items: seq<QueryItem>)
    returns (md: string, ghost trace: seq<seq<string>>)
    modifies c`attempts, c`echoed, c`calls
    ensures c.Ran(old(c.attempts), old(c.echoed), old(c.calls), trace)
    ensures trace == [SignedInUserArgs("displayName")]
    ensures ChildrenPage(parent, items, Me(TrimmedText(c.Outcome(SignedInUserArgs("displayName")))), md)
  {
    var me := UserName(c);
    trace := [SignedInUserArgs("displayName")];
    var col := ParentColumn(parent);
    var sorted := items;
    var part := NoItems;
    if |items| > 0 {
      sorted := SortedChildren(items);
      part := Table(sorted, me);
    }
    md := "# Parent\n\n" + ParentHeader + ParentSection(parent, col, me) + part;
    PageWitness(parent, items, me, md, col, sorted);
  }
}
