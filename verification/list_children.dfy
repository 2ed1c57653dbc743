/** How `cmd/list.go` reads query output: the lenient list reading, and
    the two-stage query for a parent's children. */
module ListChildren {
  import opened Errors
  import opened Strs
  import opened Json
  import opened Az
  import opened List
  import Wiql

  /** The JSON of a query item as `az boards query` prints it. */
  function ItemJson(it: QueryItem): Json
  {
    JObj(map["id" := JNum(it.id), "fields" := JObj(it.fields)])
  }

  function ItemsJson(items: seq<QueryItem>): (a: seq<Json>)
    ensures |a| == |items|
    ensures forall i :: 0 <= i < |items| ==> a[i] == ItemJson(items[i])
  {
    if |items| == 0 then [] else ItemsJson(items[..|items| - 1]) + [ItemJson(items[|items| - 1])]
  }

  /** Printed items decode back to the same items. */
  lemma ItemsDecode(items: seq<QueryItem>)
    ensures DecodeQueryItems(JArr(ItemsJson(items))) == Some(items)
  {
    var a := ItemsJson(items);
    forall i | 0 <= i < |a|
      ensures DecodeQueryItem(a[i]) == Some(items[i])
    {
      ItemDecode(items[i]);
    }
    var d := AllOf(a, DecodeQueryItem);
    if d.None? {
      assert false;
    }
    assert d.value == items;
  }

  lemma ItemDecode(it: QueryItem)
    ensures DecodeQueryItem(ItemJson(it)) == Some(it)
  {
  }

  /** A bare array is returned as it is, even when empty. */
  lemma LenientArray(text: string, items: seq<QueryItem>)
    ensures Lenient(Output(text, Some(JArr(ItemsJson(items))))) == items
  {
    ItemsDecode(items);
  }

  /** A non-empty `workItems` list is returned. */
  lemma LenientWorkItems(text: string, key: string, items: seq<QueryItem>)
    requires key == "workItems" && |items| > 0
    ensures Lenient(Output(text, Some(JObj(map[key := JArr(ItemsJson(items))])))) == items
  {
    var m := map[key := JArr(ItemsJson(items))];
    assert "value" !in m by {
      assert |"value"| != |key|;
    }
    ItemsDecode(items);
    var w := DecodeQueryItems(Member(m, "workItems"));
    var v := DecodeQueryItems(Member(m, "value"));
    assert w == Some(items);
    assert v == Some([]);
    assert DecodeLists(JObj(m)) == Some((w.value, v.value));
  }

  /** Without a `workItems` list, the `value` list is returned. */
  lemma LenientValue(text: string, key: string, items: seq<QueryItem>)
    requires key == "value"
    ensures Lenient(Output(text, Some(JObj(map[key := JArr(ItemsJson(items))])))) == items
  {
    ItemsDecode(items);
    var m := map[key := JArr(ItemsJson(items))];
    assert "workItems" !in m by {
      assert |"workItems"| != |key|;
    }
    assert DecodeQueryItems(JObj(m)) == None;
    assert DecodeLists(JObj(m)) == Some(([], items));
  }

  /** Output that is not JSON, or JSON of no known shape, is no items
      rather than an error; and where the strict id parser rejects an
      empty `workItems` list, the lenient reading returns no items. */
  lemma LenientNeverFails(text: string, n: int)
    ensures Lenient(Output(text, None)) == []
    ensures Lenient(Output(text, Some(JNum(n)))) == []
    ensures Lenient(Output(text, Some(JObj(map["workItems" := JArr([])])))) == []
    ensures Wiql.WiqlIds(Output(text, Some(JObj(map["workItems" := JArr([])])))).Fail?
  {
    var o := Output(text, Some(JObj(map["workItems" := JArr([])])));
    assert Wiql.WorkItemsShape(o) == Some([]);
    assert Wiql.ArrayShape(o) == None;
    assert !Wiql.NonEmpty(Wiql.ValueShape(o));
  }

  // ---- queryItemsByParent ----

  function ChildIdsWIQL(parentID: string): string
  {
    "SELECT [System.Id] FROM WorkItems WHERE [System.Parent] = " + parentID
  }

  /** The first shape's reading of a record: a non-zero id, else a
      numeric `System.Id` field. */
  function RecordId(it: QueryItem): Option<int>
  {
    if it.id != 0 then Some(it.id)
    else if "System.Id" in it.fields && it.fields["System.Id"].JNum? then Some(it.fields["System.Id"].n)
    else None
  }

  /** The second shape's reading of an object: a numeric `id`, else a
      numeric `System.Id` inside a `fields` object. */
  function ObjectId(obj: map<string, Json>): Option<int>
  {
    if "id" in obj && obj["id"].JNum? then Some(obj["id"].n)
    else if "fields" in obj && obj["fields"].JObj? && "System.Id" in obj["fields"].members &&
            obj["fields"].members["System.Id"].JNum? then
      Some(obj["fields"].members["System.Id"].n)
    else None
  }

  /** The ids `f` reads from `xs`, in order, skipping those it cannot. */
  function Present<T>(xs: seq<T>, f: T -> Option<int>): (ids: seq<int>)
    ensures |ids| <= |xs|
  {
    if |xs| == 0 then []
    else
      var init := Present(xs[..|xs| - 1], f);
      match f(xs[|xs| - 1])
      case Some(n) => init + [n]
      case None => init
  }

  /** When every element has an id, the ids are read one for one. */
  lemma {:induction false} PresentAll<T>(xs: seq<T>, f: T -> Option<int>)
    requires forall i :: 0 <= i < |xs| ==> f(xs[i]).Some?
    ensures |Present(xs, f)| == |xs|
    ensures forall i :: 0 <= i < |xs| ==> Present(xs, f)[i] == f(xs[i]).value
  {
    if |xs| > 0 {
      PresentAll(xs[..|xs| - 1], f);
    }
  }

  /** The append loops of both shapes. */
  method Collect<T>(xs: seq<T>, f: T -> Option<int>) returns (ids: seq<int>)
    ensures ids == Present(xs, f)
  {
    ids := [];
    var i := 0;
    while i < |xs|
      invariant 0 <= i <= |xs|
      invariant ids == Present(xs[..i], f)
    {
      assert xs[..i + 1][..i] == xs[..i];
      var id := f(xs[i]);
      if id.Some? {
        ids := ids + [id.value];
      }
      i := i + 1;
    }
    assert xs[..|xs|] == xs;
  }

  /** `{"workItems": [...]}` of records with an id and fields. */
  function ShapeA(out: Output): Option<seq<QueryItem>>
  {
    Unmarshal(out, DecodeWorkItemsEnvelope)
  }

  function DecodeWorkItemsEnvelope(j: Json): Option<seq<QueryItem>>
  {
    match j
    case JNull => Some([])
    case JObj(m) => DecodeQueryItems(Member(m, "workItems"))
    case _ => None
  }

  /** A bare array of objects. */
  function ShapeB(out: Output): Option<seq<map<string, Json>>>
  {
    Unmarshal(out, j => AsSlice(j, AsFields))
  }

  /** The child ids of the first query's output: the first shape's ids,
      or, when it yields none, the second shape's. */
  function ChildIds(out: Output): seq<int>
  {
    var a := if ShapeA(out).Some? && |ShapeA(out).value| > 0 then Present(ShapeA(out).value, RecordId) else [];
    if |a| > 0 then a
    else if ShapeB(out).Some? && |ShapeB(out).value| > 0 then Present(ShapeB(out).value, ObjectId)
    else []
  }

  method ParentIds(out: Output) returns (ids: seq<int>)
    ensures ids == ChildIds(out)
  {
    ids := [];
    var resA := ShapeA(out);
    if resA.Some? && |resA.value| > 0 {
      ids := Collect(resA.value, RecordId);
    }
    if |ids| == 0 {
      var arr := ShapeB(out);
      if arr.Some? && |arr.value| > 0 {
        ids := Collect(arr.value, ObjectId);
      }
    }
  }

  /** `{"workItems": [...]}` whose records all carry an id gives those ids. */
  lemma ChildIdsWorkItems(text: string, items: seq<QueryItem>)
    requires |items| > 0
    requires forall i :: 0 <= i < |items| ==> RecordId(items[i]).Some?
    ensures var ids := ChildIds(Output(text, Some(JObj(map["workItems" := JArr(ItemsJson(items))]))));
      |ids| == |items| && forall i :: 0 <= i < |items| ==> ids[i] == RecordId(items[i]).value
  {
    ItemsDecode(items);
    PresentAll(items, RecordId);
    assert ShapeA(Output(text, Some(JObj(map["workItems" := JArr(ItemsJson(items))])))) == Some(items);
  }

  /** The objects `{"id": n}`, one per id. */
  function IdObjects(ids: seq<int>): (objs: seq<map<string, Json>>)
    ensures |objs| == |ids|
    ensures forall i :: 0 <= i < |ids| ==> objs[i] == map["id" := JNum(ids[i])]
  {
    if |ids| == 0 then [] else IdObjects(ids[..|ids| - 1]) + [map["id" := JNum(ids[|ids| - 1])]]
  }

  lemma ObjectsOfRecords(ids: seq<int>)
    ensures AsSlice(JArr(Wiql.Records(ids)), AsFields) == Some(IdObjects(ids))
  {
    var a := Wiql.Records(ids);
    var d := AllOf(a, AsFields);
    if d.None? {
      assert false;
    }
    assert d.value == IdObjects(ids);
  }

  lemma ObjectIds(ids: seq<int>)
    ensures Present(IdObjects(ids), ObjectId) == ids
  {
    var objs := IdObjects(ids);
    assert forall i :: 0 <= i < |objs| ==> ObjectId(objs[i]) == Some(ids[i]);
    PresentAll(objs, ObjectId);
  }

  /** A bare array of `{"id": n}` objects gives the ids, zero included. */
  lemma ChildIdsArray(text: string, ids: seq<int>)
    requires |ids| > 0
    ensures ChildIds(Output(text, Some(JArr(Wiql.Records(ids))))) == ids
  {
    var o := Output(text, Some(JArr(Wiql.Records(ids))));
    assert ShapeA(o) == None;
    ShapeBRecords(o, ids);
    ObjectIds(ids);
  }

  lemma ShapeBRecords(o: Output, ids: seq<int>)
    requires o.json == Some(JArr(Wiql.Records(ids)))
    ensures ShapeB(o) == Some(IdObjects(ids))
  {
    ObjectsOfRecords(ids);
  }

  /** The decimal ids, as `strconv.Itoa` writes them. */
  function Decimal(ids: seq<int>): (s: seq<string>)
    ensures |s| == |ids|
    ensures forall i :: 0 <= i < |ids| ==> s[i] == IntToString(ids[i])
  {
    if |ids| == 0 then [] else Decimal(ids[..|ids| - 1]) + [IntToString(ids[|ids| - 1])]
  }

  /** The second query: the children by id, optionally without closed
      ones, newest change first. */
  function ChildrenQuery(ids: seq<int>, includeClosed: bool): Query
  {
    Query(SelectFields, ["[System.Id] IN (" + Join(Decimal(ids), ",") + ")"] + OpenOnly(includeClosed, NotClosedQuoted), ByChangedDate)
  }

  method IdStrings(ids: seq<int>) returns (strs: seq<string>)
    ensures strs == Decimal(ids)
  {
    strs := [];
    var i := 0;
    while i < |ids|
      invariant 0 <= i <= |ids|
      invariant strs == Decimal(ids[..i])
    {
      assert ids[..i + 1][..i] == ids[..i];
      strs := strs + [IntToString(ids[i])];
      i := i + 1;
    }
    assert ids[..|ids|] == ids;
  }

  /** The second stage's parse as written: a non-empty bare array, else
      the `workItems`/`value` object; anything else, an empty bare array
      included, is the error "parse children". */
  function ChildrenAsWritten(out: Output): Result<seq<QueryItem>>
  {
    var arr := Unmarshal(out, DecodeQueryItems);
    if arr.Some? && |arr.value| > 0 then Ok(arr.value)
    else
      match Unmarshal(out, DecodeLists)
      case None => Fail(Wrapped("parse children", DecodeFailed))
      case Some(lists) => Ok(if |lists.0| == 0 then lists.1 else lists.0)
  }

  /** The second stage's parse as intended: a bare array is the list even
      when empty, as `queryItemsByWIQL` reads it. */
  function Children(out: Output): Result<seq<QueryItem>>
  {
    match Unmarshal(out, DecodeQueryItems)
    case Some(arr) => Ok(arr)
    case None =>
      (match Unmarshal(out, DecodeLists)
       case None => Fail(Wrapped("parse children", DecodeFailed))
       case Some(lists) => Ok(if |lists.0| == 0 then lists.1 else lists.0))
  }

  /** `[]`, what the query prints when every child is filtered out, is an
      error as written and no children as intended. */
  lemma EmptyChildrenArray(text: string)
    ensures ChildrenAsWritten(Output(text, Some(JArr([])))) == Fail(Wrapped("parse children", DecodeFailed))
    ensures Children(Output(text, Some(JArr([])))) == Ok([])
  {
  }

  /** The intended parse keeps every answer of the written one, reads what
      it accepts as the lenient reading does, and still rejects exactly
      the output that decodes neither as a list nor as the object. */
  lemma ChildrenSpec(out: Output)
    ensures ChildrenAsWritten(out).Ok? ==> Children(out) == ChildrenAsWritten(out)
    ensures Children(out).Ok? ==> Children(out).value == Lenient(out)
    ensures Children(out).Fail? <==> Unmarshal(out, DecodeQueryItems).None? && Unmarshal(out, DecodeLists).None?
    ensures Children(out).Fail? ==> Children(out).error == Wrapped("parse children", DecodeFailed)
  {
  }

  /** The second stage: strict about output that does not decode. */
  method ParseChildren(out: Output) returns (r: Result<seq<QueryItem>>)
    ensures r == Children(out)
  {
    var arr := Unmarshal(out, DecodeQueryItems);
    if arr.Some? {
      return Ok(arr.value);
    }
    var res := Unmarshal(out, DecodeLists);
    if res.None? {
      return Fail(Wrapped("parse children", DecodeFailed));
    }
    var items := res.value.0;
    if |items| == 0 {
      items := res.value.1;
    }
    return Ok(items);
  }

  /** The second stage for the ids the first one found: one query for
      those children, an executor failure wrapped as "query children
      failed", and output read by `Children`. */
  ghost predicate ChildrenFetched(c: Client, ids: seq<int>, includeClosed: bool,
                                  trace: seq<seq<string>>, r: Result<seq<QueryItem>>)
    reads c`mode, c`confirm, c`exec
  {
    var q := QueryArgs(Text(ChildrenQuery(ids, includeClosed)));
    var o := c.Outcome(q);
    trace == [q] &&
    r == (if o.Fail? then Fail(Wrapped("query children failed", o.error)) else Children(o.value))
  }

  method FetchChildren(c: Client, ids: seq<int>, includeClosed: bool)
    returns (r: Result<seq<QueryItem>>, ghost trace: seq<seq<string>>)
    modifies c`attempts, c`echoed, c`calls
    ensures c.Ran(old(c.attempts), old(c.echoed), old(c.calls), trace)
    ensures ChildrenFetched(c, ids, includeClosed, trace, r)
  {
    var idStrs := IdStrings(ids);
    var where := ["[System.Id] IN (" + Join(idStrs, ",") + ")"];
    if !includeClosed {
      where := where + [NotClosedQuoted];
    }
    var wiql := BuildWiql(SelectFields, where, ByChangedDate);
    var raw := c.QueryWIQL(wiql);
    trace := [QueryArgs(wiql)];
    if raw.Fail? {
      return Fail(Wrapped("query children failed", raw.error)), trace;
    }
    r := ParseChildren(raw.value);
  }

  /** `queryItemsByParent`: the id query, then, only when it yields ids,
      the second stage; an id query failure is wrapped as "query child ids
      failed", and no ids is no children. */
  ghost predicate ParentQueried(c: Client, parentID: string, includeClosed: bool,
                                trace: seq<seq<string>>, r: Result<seq<QueryItem>>)
    reads c`mode, c`confirm, c`exec
  {
    var q1 := QueryArgs(ChildIdsWIQL(parentID));
    var o1 := c.Outcome(q1);
    && |trace| >= 1 && trace[0] == q1
    && (o1.Fail? ==> |trace| == 1 && r == Fail(Wrapped("query child ids failed", o1.error)))
    && (o1.Ok? && ChildIds(o1.value) == [] ==> |trace| == 1 && r == Ok([]))
    && (o1.Ok? && ChildIds(o1.value) != [] ==> ChildrenFetched(c, ChildIds(o1.value), includeClosed, trace[1..], r))
  }

  method QueryItemsByParent(c: Client, parentID: string, includeClosed: bool)
    returns (r: Result<seq<QueryItem>>, ghost trace: seq<seq<string>>)
    modifies c`attempts, c`echoed, c`calls
    ensures c.Ran(old(c.attempts), old(c.echoed), old(c.calls), trace)
    ensures ParentQueried(c, parentID, includeClosed, trace, r)
  {
    ghost var a0, e0, c0 := c.attempts, c.echoed, c.calls;
    var wiqlIds := ChildIdsWIQL(parentID);
    var raw := c.QueryWIQL(wiqlIds);
    trace := [QueryArgs(wiqlIds)];
    if raw.Fail? {
      return Fail(Wrapped("query child ids failed", raw.error)), trace;
    }
    var ids := ParentIds(raw.value);
    if |ids| == 0 {
      return Ok([]), trace;
    }
    ghost var a1, e1, c1 := c.attempts, c.echoed, c.calls;
    ghost var rest;
    r, rest := FetchChildren(c, ids, includeClosed);
    c.Chain(a0, e0, c0, trace, a1, e1, c1, rest, c.attempts, c.echoed, c.calls);
    trace := trace + rest;
    assert trace[1..] == rest;
  }
}
