/** Extracting work item ids from `az boards query` output
    (internal/util/wiql.go). Three shapes are tried in turn, and the first
    that decodes to a non-empty list wins:
    an object with a `workItems` array, a bare array, an object with a
    `value` array; each element is an object with an integer `id`. */
module Wiql {
  import opened Errors
  import opened Json

  /** `struct { ID int }`. */
  datatype IdRecord = IdRecord(id: int)

  function DecodeIdRecord(j: Json): Option<IdRecord>
  {
    match j
    case JNull => Some(IdRecord(0))
    case JObj(m) =>
      (match AsInt(Member(m, "id"))
       case Some(n) => Some(IdRecord(n))
       case None => None)
    case _ => None
  }

  /** `[]struct { ID int }`. */
  function DecodeRecords(j: Json): Option<seq<IdRecord>>
  {
    AsSlice(j, DecodeIdRecord)
  }

  /** A struct whose only field is a record slice stored under `key`. */
  function DecodeEnvelope(key: string, j: Json): Option<seq<IdRecord>>
  {
    match j
    case JNull => Some([])
    case JObj(m) => DecodeRecords(Member(m, key))
    case _ => None
  }

  function WorkItemsShape(out: Output): Option<seq<IdRecord>>
  {
    Unmarshal(out, j => DecodeEnvelope("workItems", j))
  }

  function ArrayShape(out: Output): Option<seq<IdRecord>>
  {
    Unmarshal(out, DecodeRecords)
  }

  function ValueShape(out: Output): Option<seq<IdRecord>>
  {
    Unmarshal(out, j => DecodeEnvelope("value", j))
  }

  predicate NonEmpty(d: Option<seq<IdRecord>>)
  {
    d.Some? && |d.value| > 0
  }

  /** The ids of the records, in order. */
  function Ids(rs: seq<IdRecord>): (ids: seq<int>)
    ensures |ids| == |rs|
    ensures forall i :: 0 <= i < |rs| ==> ids[i] == rs[i].id
  {
    if |rs| == 0 then [] else Ids(rs[..|rs| - 1]) + [rs[|rs| - 1].id]
  }

  /** What `ParseWIQLIDs` returns. */
  function WiqlIds(out: Output): Result<seq<int>>
  {
    if NonEmpty(WorkItemsShape(out)) then Ok(Ids(WorkItemsShape(out).value))
    else if NonEmpty(ArrayShape(out)) then Ok(Ids(ArrayShape(out).value))
    else if NonEmpty(ValueShape(out)) then Ok(Ids(ValueShape(out).value))
    else Fail(UnrecognizedShape)
  }

  /** The append loop shared by the three shapes. */
  method CollectIds(rs: seq<IdRecord>) returns (ids: seq<int>)
    ensures ids == Ids(rs)
  {
    ids := [];
    var i := 0;
    while i < |rs|
      invariant 0 <= i <= |rs|
      invariant ids == Ids(rs[..i])
    {
      assert rs[..i + 1][..i] == rs[..i];
      ids := ids + [rs[i].id];
      i := i + 1;
    }
    assert rs[..|rs|] == rs;
  }

  method ParseWIQLIDs(out: Output) returns (r: Result<seq<int>>)
    ensures r == WiqlIds(out)
  {
    var s1 := WorkItemsShape(out);
    if s1.Some? && |s1.value| > 0 {
      var ids := CollectIds(s1.value);
      return Ok(ids);
    }
    var s2 := ArrayShape(out);
    if s2.Some? && |s2.value| > 0 {
      var ids := CollectIds(s2.value);
      return Ok(ids);
    }
    var s3 := ValueShape(out);
    if s3.Some? && |s3.value| > 0 {
      var ids := CollectIds(s3.value);
      return Ok(ids);
    }
    return Fail(UnrecognizedShape);
  }

  /** A success always carries at least one id; an error happens exactly
      when no shape yields a non-empty list. */
  lemma WiqlIdsOutcome(out: Output)
    ensures WiqlIds(out).Ok? ==> |WiqlIds(out).value| > 0
    ensures WiqlIds(out).Fail? <==>
      !NonEmpty(WorkItemsShape(out)) && !NonEmpty(ArrayShape(out)) && !NonEmpty(ValueShape(out))
    ensures WiqlIds(out).Fail? ==> WiqlIds(out) == Fail(UnrecognizedShape)
  {
  }

  /** The JSON `{"id": n}` for each id. */
  function Records(ids: seq<int>): (a: seq<Json>)
    ensures |a| == |ids|
    ensures forall i :: 0 <= i < |ids| ==> a[i] == JObj(map["id" := JNum(ids[i])])
  {
    if |ids| == 0 then [] else Records(ids[..|ids| - 1]) + [JObj(map["id" := JNum(ids[|ids| - 1])])]
  }

  lemma RecordDecode(n: int)
    ensures DecodeIdRecord(JObj(map["id" := JNum(n)])) == Some(IdRecord(n))
  {
  }

  lemma RecordsDecode(ids: seq<int>)
    ensures DecodeRecords(JArr(Records(ids))).Some?
    ensures Ids(DecodeRecords(JArr(Records(ids))).value) == ids
  {
    var a := Records(ids);
    forall i | 0 <= i < |ids|
      ensures DecodeIdRecord(a[i]) == Some(IdRecord(ids[i]))
    {
      RecordDecode(ids[i]);
    }
    var rs := DecodeRecords(JArr(a)).value;
    assert |rs| == |ids|;
    assert forall i :: 0 <= i < |ids| ==> rs[i].id == ids[i];
  }

  /** A bare array of id objects reads back as its ids. */
  lemma ArrayShapeRoundTrip(text: string, ids: seq<int>)
    requires |ids| > 0
    ensures WiqlIds(Output(text, Some(JArr(Records(ids))))) == Ok(ids)
  {
    RecordsDecode(ids);
    ArrayWins(text, JArr(Records(ids)));
  }

  lemma ArrayWins(text: string, a: Json)
    requires a.JArr? && NonEmpty(DecodeRecords(a))
    ensures WiqlIds(Output(text, Some(a))) == Ok(Ids(DecodeRecords(a).value))
  {
    var out := Output(text, Some(a));
    assert WorkItemsShape(out) == None;
    assert ArrayShape(out) == DecodeRecords(a);
  }

  /** `{"workItems": [...]}` reads back as its ids. */
  lemma WorkItemsShapeRoundTrip(text: string, ids: seq<int>)
    requires |ids| > 0
    ensures WiqlIds(Output(text, Some(JObj(map["workItems" := JArr(Records(ids))])))) == Ok(ids)
  {
    RecordsDecode(ids);
    MemberWins(text, "workItems", JArr(Records(ids)));
  }

  lemma MemberWins(text: string, key: string, a: Json)
    requires key == "workItems"
    requires NonEmpty(DecodeRecords(a))
    ensures WiqlIds(Output(text, Some(JObj(map[key := a])))) == Ok(Ids(DecodeRecords(a).value))
  {
    var out := Output(text, Some(JObj(map[key := a])));
    assert WorkItemsShape(out) == DecodeRecords(a);
  }

  /** `{"value": [...]}` reads back as its ids. */
  lemma ValueShapeRoundTrip(text: string, ids: seq<int>)
    requires |ids| > 0
    ensures WiqlIds(Output(text, Some(JObj(map["value" := JArr(Records(ids))])))) == Ok(ids)
  {
    RecordsDecode(ids);
    ValueWins(text, "value", JArr(Records(ids)));
  }

  lemma ValueWins(text: string, key: string, a: Json)
    requires key == "value"
    requires NonEmpty(DecodeRecords(a))
    ensures WiqlIds(Output(text, Some(JObj(map[key := a])))) == Ok(Ids(DecodeRecords(a).value))
  {
    var m := map[key := a];
    var out := Output(text, Some(JObj(m)));
    assert "workItems" !in m by {
      assert |"workItems"| != |key|;
    }
    assert WorkItemsShape(out) == Some([]);
    assert ArrayShape(out) == None;
    assert ValueShape(out) == DecodeRecords(a);
  }

  /** An object with neither member, and output that is not JSON, are
      errors. */
  lemma UnrecognizedShapes(text: string, m: map<string, Json>)
    requires "workItems" !in m && "value" !in m
    ensures WiqlIds(Output(text, Some(JObj(m)))) == Fail(UnrecognizedShape)
    ensures WiqlIds(Output(text, None)) == Fail(UnrecognizedShape)
  {
  }
}
