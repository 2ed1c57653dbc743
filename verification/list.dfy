/** The queries behind the listing commands (cmd/list.go): the WIQL texts,
    the lenient decoding of query output and the product-owner merge of
    two queries. */
module List {
  import opened Errors
  import opened Strs
  import opened Json
  import opened Az
  import Wiql

  const SelectFields := "SELECT [System.Id], [System.Title], [System.State], [System.WorkItemType], [System.AssignedTo] FROM WorkItems"
  const SelectRanked := "SELECT [System.Id], [System.Title], [System.State], [System.WorkItemType], [System.AssignedTo], [Microsoft.VSTS.Common.StackRank] FROM WorkItems"
  const ByChangedDate := " ORDER BY [System.ChangedDate] DESC"
  const ByStackRank := " ORDER BY [Microsoft.VSTS.Common.StackRank] ASC, [System.ChangedDate] DESC"
  const NotClosed := "[System.State] <> 'Closed'"
  /** The spelling `baseListWIQL` and the children query use. */
  const NotClosedQuoted := "[System.State] <> \"Closed\""
  const StoryOrBug := "[System.WorkItemType] IN ('User Story','Bug')"
  const NotStoryOrBug := "[System.WorkItemType] NOT IN ('User Story','Bug')"

  function TypeIs(t: string): string
  {
    "[System.WorkItemType] = '" + t + "'"
  }

  function TypeIsQuoted(t: string): string
  {
    "[System.WorkItemType] = \"" + t + "\""
  }

  /** A WIQL query: a select list, conditions joined by AND, an order. */
  datatype Query = Query(select: string, conds: seq<string>, order: string)

  /** The text of a query; without conditions there is no WHERE. */
  function Text(q: Query): string
  {
    q.select + (if |q.conds| == 0 then "" else " WHERE " + Join(q.conds, " AND ")) + q.order
  }

  /** `[c]` when closed items are excluded, else nothing. */
  function OpenOnly(includeClosed: bool, c: string): seq<string>
  {
    if includeClosed then [] else [c]
  }

  /** The query `baseListWIQLWith` builds. */
  function ListQuery(includeClosed: bool, typeFilter: string): Query
  {
    Query(SelectFields, OpenOnly(includeClosed, NotClosed) + (if TrimSpace(typeFilter) != "" then [TypeIs(typeFilter)] else []), ByChangedDate)
  }

  /** The state condition is present exactly when closed items are
      excluded, the type condition exactly when the trimmed filter is not
      blank, in that order, and nothing else. */
  lemma ListQueryConditions(includeClosed: bool, typeFilter: string)
    ensures var conds := ListQuery(includeClosed, typeFilter).conds;
      && (NotClosed in conds <==> !includeClosed)
      && (TypeIs(typeFilter) in conds <==> TrimSpace(typeFilter) != "")
      && |conds| == (if includeClosed then 0 else 1) + (if TrimSpace(typeFilter) != "" then 1 else 0)
      && (!includeClosed ==> conds[0] == NotClosed)
  {
    assert NotClosed[8] != TypeIs(typeFilter)[8];
  }

  /** `baseListWIQLWith` as written: a `where` string grown by
      concatenation. */
  function BaseListWIQLWith(includeClosed: bool, typeFilter: string): string
  {
    var where0 := if !includeClosed then NotClosed else "";
    var where1 :=
      if TrimSpace(typeFilter) != "" then
        (if where0 == "" then TypeIs(typeFilter) else where0 + " AND " + TypeIs(typeFilter))
      else where0;
    SelectFields + (if where1 != "" then " WHERE " + where1 else "") + ByChangedDate
  }

  /** The concatenation above is the conditions joined with AND. */
  lemma BaseListWIQLWithText(includeClosed: bool, typeFilter: string)
    ensures BaseListWIQLWith(includeClosed, typeFilter) == Text(ListQuery(includeClosed, typeFilter))
  {
    assert |NotClosed| > 0;
    assert |TypeIs(typeFilter)| > 0;
    WhereText(SelectFields, OpenOnly(includeClosed, NotClosed), if TrimSpace(typeFilter) != "" then [TypeIs(typeFilter)] else [], ByChangedDate);
  }

  /** At most two conditions: the text joins them as the `where` string
      grown by concatenation does. */
  lemma WhereText(select: string, first: seq<string>, second: seq<string>, order: string)
    requires |first| <= 1 && |second| <= 1
    requires forall i :: 0 <= i < |first| ==> first[i] != ""
    requires forall i :: 0 <= i < |second| ==> second[i] != ""
    ensures var w0 := if |first| == 1 then first[0] else "";
      var w1 := if |second| == 1 then (if w0 == "" then second[0] else w0 + " AND " + second[0]) else w0;
      Text(Query(select, first + second, order)) == select + (if w1 != "" then " WHERE " + w1 else "") + order
  {
    var conds := first + second;
    if |first| == 1 && |second| == 1 {
      assert conds == [first[0], second[0]];
      assert Join(conds, " AND ") == first[0] + " AND " + second[0] by {
        assert conds[1..] == [second[0]];
      }
    } else if |first| == 1 {
      assert conds == [first[0]];
    } else if |second| == 1 {
      assert conds == [second[0]];
    } else {
      assert conds == [];
    }
  }

  /** The query `baseListWIQL` builds from the package-wide `includeAll`:
      double-quoted literals, and an untrimmed filter test. */
  function BaseQuery(includeAll: bool, typeFilter: string): Query
  {
    Query(SelectFields, OpenOnly(includeAll, NotClosedQuoted) + (if typeFilter != "" then [TypeIsQuoted(typeFilter)] else []), ByChangedDate)
  }

  function BaseListWIQL(includeAll: bool, typeFilter: string): string
  {
    var where0 := if !includeAll then NotClosedQuoted else "";
    var where1 :=
      if typeFilter != "" then
        (if where0 == "" then TypeIsQuoted(typeFilter) else where0 + " AND " + TypeIsQuoted(typeFilter))
      else where0;
    SelectFields + (if where1 != "" then " WHERE " + where1 else "") + ByChangedDate
  }

  lemma BaseListWIQLText(includeAll: bool, typeFilter: string)
    ensures BaseListWIQL(includeAll, typeFilter) == Text(BaseQuery(includeAll, typeFilter))
  {
    assert |NotClosedQuoted| > 0;
    assert |TypeIsQuoted(typeFilter)| > 0;
    WhereText(SelectFields, OpenOnly(includeAll, NotClosedQuoted), if typeFilter != "" then [TypeIsQuoted(typeFilter)] else [], ByChangedDate);
  }

  /** The single-type query ranked by StackRank. */
  function RankedQuery(includeClosed: bool, typeFilter: string): Query
  {
    Query(SelectRanked, OpenOnly(includeClosed, NotClosed) + [TypeIs(typeFilter)], ByStackRank)
  }

  /** The first query of the product-owner order: stories and bugs. */
  function StoryBugQuery(includeClosed: bool): Query
  {
    Query(SelectRanked, OpenOnly(includeClosed, NotClosed) + [StoryOrBug], ByStackRank)
  }

  /** The second query: every other type, newest change first. */
  function OthersQuery(includeClosed: bool): Query
  {
    Query(SelectFields, OpenOnly(includeClosed, NotClosed) + [NotStoryOrBug], ByChangedDate)
  }

  /** The decoding `struct { WorkItems, Value []queryItem }`. */
  function DecodeLists(j: Json): Option<(seq<QueryItem>, seq<QueryItem>)>
  {
    match j
    case JNull => Some(([], []))
    case JObj(m) =>
      (match (DecodeQueryItems(Member(m, "workItems")), DecodeQueryItems(Member(m, "value")))
       case (Some(w), Some(v)) => Some((w, v))
       case _ => None)
    case _ => None
  }

  /** The items `queryItemsByWIQL` reads from a query's output: a bare
      array as it is, even empty; else `workItems` when non-empty, else
      `value`; and anything else as no items, never an error. */
  function Lenient(out: Output): seq<QueryItem>
  {
    match Unmarshal(out, DecodeQueryItems)
    case Some(arr) => arr
    case None =>
      (match Unmarshal(out, DecodeLists)
       case Some(lists) => if |lists.0| == 0 then lists.1 else lists.0
       case None => [])
  }

  /** What `queryItemsByWIQL` returns for the executor's outcome. */
  function Fetched(out: Result<Output>): (r: Result<seq<QueryItem>>)
  {
    match out
    case Fail(e) => Fail(Wrapped("query failed", e))
    case Ok(o) => Ok(Lenient(o))
  }

  /** `queryItemsByWIQL`: one query; an executor failure is wrapped as
      "query failed", and every output decodes to some list. */
  method QueryItemsByWIQL(c: Client, wiql: string) returns (r: Result<seq<QueryItem>>)
    modifies c`attempts, c`echoed, c`calls
    ensures c.Ran(old(c.attempts), old(c.echoed), old(c.calls), [QueryArgs(wiql)])
    ensures r == Fetched(c.Outcome(QueryArgs(wiql)))
    ensures r.Fail? ==> r.error == Wrapped("query failed", c.Outcome(QueryArgs(wiql)).error)
  {
    var raw := c.QueryWIQL(wiql);
    if raw.Fail? {
      return Fail(Wrapped("query failed", raw.error));
    }
    var arr := Unmarshal(raw.value, DecodeQueryItems);
    if arr.Some? {
      return Ok(arr.value);
    }
    var res := Unmarshal(raw.value, DecodeLists);
    if res.Some? {
      var items := res.value.0;
      if |items| == 0 {
        items := res.value.1;
      }
      return Ok(items);
    }
    return Ok([]);
  }

  /** `queryItems`: the base listing under the package-wide `includeAll`. */
  method QueryItems(c: Client, includeAll: bool, typeFilter: string) returns (r: Result<seq<QueryItem>>)
    modifies c`attempts, c`echoed, c`calls
    ensures c.Ran(old(c.attempts), old(c.echoed), old(c.calls), [QueryArgs(Text(BaseQuery(includeAll, typeFilter)))])
    ensures r == Fetched(c.Outcome(QueryArgs(Text(BaseQuery(includeAll, typeFilter)))))
  {
    BaseListWIQLText(includeAll, typeFilter);
    r := QueryItemsByWIQL(c, BaseListWIQL(includeAll, typeFilter));
  }

  /** Two queries in sequence: the second runs only if the first
      succeeded. */
  function ConcatCalls(run: seq<string> -> Result<Output>, wiql1: string, wiql2: string): (calls: seq<seq<string>>)
    ensures calls == [QueryArgs(wiql1)] || calls == [QueryArgs(wiql1), QueryArgs(wiql2)]
  {
    if Fetched(run(QueryArgs(wiql1))).Fail? then [QueryArgs(wiql1)] else [QueryArgs(wiql1), QueryArgs(wiql2)]
  }

  /** The first query's error, else the second's, else the first list
      followed by the second, each in query order. */
  function Concatenation(run: seq<string> -> Result<Output>, wiql1: string, wiql2: string): Result<seq<QueryItem>>
  {
    var f1 := Fetched(run(QueryArgs(wiql1)));
    var f2 := Fetched(run(QueryArgs(wiql2)));
    if f1.Fail? then Fail(f1.error) else if f2.Fail? then Fail(f2.error) else Ok(f1.value + f2.value)
  }

  method Concatenate(c: Client, wiql1: string, wiql2: string) returns (r: Result<seq<QueryItem>>, ghost trace: seq<seq<string>>)
    modifies c`attempts, c`echoed, c`calls
    ensures c.Ran(old(c.attempts), old(c.echoed), old(c.calls), trace)
    ensures trace == ConcatCalls(c.Runner(), wiql1, wiql2)
    ensures r == Concatenation(c.Runner(), wiql1, wiql2)
  {
    ghost var a0, e0, c0 := c.attempts, c.echoed, c.calls;
    var items1 := QueryItemsByWIQL(c, wiql1);
    trace := [QueryArgs(wiql1)];
    if items1.Fail? {
      return Fail(items1.error), trace;
    }
    ghost var a1, e1, c1 := c.attempts, c.echoed, c.calls;
    var items2 := QueryItemsByWIQL(c, wiql2);
    c.Chain(a0, e0, c0, trace, a1, e1, c1, [QueryArgs(wiql2)], c.attempts, c.echoed, c.calls);
    trace := trace + [QueryArgs(wiql2)];
    if items2.Fail? {
      return Fail(items2.error), trace;
    }
    return Ok(items1.value + items2.value), trace;
  }

  /** The conditions slice grown by `append`, then joined. */
  method Conditions(includeClosed: bool, last: string) returns (where: seq<string>)
    ensures where == OpenOnly(includeClosed, NotClosed) + [last]
  {
    where := [];
    if !includeClosed {
      where := where + [NotClosed];
    }
    where := where + [last];
  }

  /** The text grown by `+=`: WHERE and the joined conditions when there
      are any, then the order. */
  method BuildWiql(select: string, where: seq<string>, order: string) returns (wiql: string)
    ensures wiql == Text(Query(select, where, order))
  {
    wiql := select;
    if |where| > 0 {
      wiql := wiql + " WHERE " + Join(where, " AND ");
    }
    wiql := wiql + order;
  }

  /** `queryPOOrdered`. */
  method QueryPOOrdered(c: Client, includeClosed: bool) returns (r: Result<seq<QueryItem>>, ghost trace: seq<seq<string>>)
    modifies c`attempts, c`echoed, c`calls
    ensures c.Ran(old(c.attempts), old(c.echoed), old(c.calls), trace)
    ensures trace == ConcatCalls(c.Runner(), Text(StoryBugQuery(includeClosed)), Text(OthersQuery(includeClosed)))
    ensures r == Concatenation(c.Runner(), Text(StoryBugQuery(includeClosed)), Text(OthersQuery(includeClosed)))
  {
    var where1 := Conditions(includeClosed, StoryOrBug);
    var wiql1 := BuildWiql(SelectRanked, where1, ByStackRank);
    var where2 := Conditions(includeClosed, NotStoryOrBug);
    var wiql2 := BuildWiql(SelectFields, where2, ByChangedDate);
    r, trace := Concatenate(c, wiql1, wiql2);
  }

  /** Which query `queryItemsWithOrder` runs; `None` is the two-query
      product-owner merge. */
  function OrderPlan(typeFilter: string, includeClosed: bool, usePO: bool): Option<Query>
  {
    if !usePO then Some(ListQuery(includeClosed, typeFilter))
    else if typeFilter == "User Story" || typeFilter == "Bug" then Some(RankedQuery(includeClosed, typeFilter))
    else if typeFilter == "" then None
    else Some(ListQuery(includeClosed, typeFilter))
  }

  /** The merge happens exactly for the product-owner order without a type
      filter; a single query is ranked by StackRank exactly for the
      product-owner order of stories or of bugs, and excludes closed items
      exactly when asked to. */
  lemma OrderPlanSpec(typeFilter: string, includeClosed: bool, usePO: bool)
    ensures OrderPlan(typeFilter, includeClosed, usePO).None? <==> usePO && typeFilter == ""
    ensures var p := OrderPlan(typeFilter, includeClosed, usePO);
      p.Some? ==> (p.value.order == ByStackRank <==> usePO && (typeFilter == "User Story" || typeFilter == "Bug"))
    ensures var p := OrderPlan(typeFilter, includeClosed, usePO);
      p.Some? ==> (NotClosed in p.value.conds <==> !includeClosed)
  {
    assert |ByStackRank| != |ByChangedDate|;
    ListQueryConditions(includeClosed, typeFilter);
    assert NotClosed[8] != TypeIs(typeFilter)[8];
  }

  /** The commands `queryItemsWithOrder` hands to `runAz`: the plan's
      one query, or the two queries of the product-owner merge. */
  function QueryCalls(run: seq<string> -> Result<Output>, typeFilter: string, includeClosed: bool, usePO: bool)
    : seq<seq<string>>
  {
    match OrderPlan(typeFilter, includeClosed, usePO)
    case Some(q) => [QueryArgs(Text(q))]
    case None => ConcatCalls(run, Text(StoryBugQuery(includeClosed)), Text(OthersQuery(includeClosed)))
  }

  /** What `queryItemsWithOrder` returns. */
  function QueryResult(run: seq<string> -> Result<Output>, typeFilter: string, includeClosed: bool, usePO: bool)
    : Result<seq<QueryItem>>
  {
    match OrderPlan(typeFilter, includeClosed, usePO)
    case Some(q) => Fetched(run(QueryArgs(Text(q))))
    case None => Concatenation(run, Text(StoryBugQuery(includeClosed)), Text(OthersQuery(includeClosed)))
  }

  /** `queryItemsWithOrder`. */
  method QueryItemsWithOrder(c: Client, typeFilter: string, includeClosed: bool, usePO: bool)
    returns (r: Result<seq<QueryItem>>, ghost trace: seq<seq<string>>)
    modifies c`attempts, c`echoed, c`calls
    ensures c.Ran(old(c.attempts), old(c.echoed), old(c.calls), trace)
    ensures trace == QueryCalls(c.Runner(), typeFilter, includeClosed, usePO)
    ensures r == QueryResult(c.Runner(), typeFilter, includeClosed, usePO)
  {
    if !usePO {
      BaseListWIQLWithText(includeClosed, typeFilter);
      r := QueryItemsByWIQL(c, BaseListWIQLWith(includeClosed, typeFilter));
      return r, [QueryArgs(BaseListWIQLWith(includeClosed, typeFilter))];
    }
    if typeFilter == "User Story" || typeFilter == "Bug" {
      var where := Conditions(includeClosed, TypeIs(typeFilter));
      var wiql := BuildWiql(SelectRanked, where, ByStackRank);
      r := QueryItemsByWIQL(c, wiql);
      return r, [QueryArgs(wiql)];
    }
    if typeFilter == "" {
      r, trace := QueryPOOrdered(c, includeClosed);
      return;
    }
    BaseListWIQLWithText(includeClosed, typeFilter);
    r := QueryItemsByWIQL(c, BaseListWIQLWith(includeClosed, typeFilter));
    return r, [QueryArgs(BaseListWIQLWith(includeClosed, typeFilter))];
  }
}
