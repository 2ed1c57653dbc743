/** Decoded JSON values and the rules by which Go's `encoding/json` fills the
    tool's typed records from them.

    The executor returns bytes; the model represents them as an `Output`
    holding the text and, when the text is valid JSON, the value it parses
    to. Numbers are integers. Decoding into a typed value follows
    `json.Unmarshal`: `null` leaves the zero value, an absent member leaves
    the zero value, unknown members are ignored, and a value of the wrong
    kind anywhere makes the whole call fail. */
module Json {
  import opened Errors

  datatype Json =
    | JNull
    | JBool(b: bool)
    | JNum(n: int)
    | JStr(s: string)
    | JArr(items: seq<Json>)
    | JObj(members: map<string, Json>)

  /** A work item's `fields` object: field reference name to value. A Go nil
      map reads exactly like an empty one, so both are the empty map. */
  type Fields = map<string, Json>

  /** What the executor printed: its text and, if that text is valid JSON,
      the parsed value. */
  datatype Output = Output(text: string, json: Option<Json>)

  /** `az.WorkItem` (internal/az/az.go). */
  datatype WorkItem = WorkItem(id: int, rev: int, fields: Fields, url: string)

  /** `queryItem` (cmd/list.go). */
  datatype QueryItem = QueryItem(id: int, fields: Fields)

  /** `az.Repo` (internal/az/repos.go). */
  datatype Repo = Repo(id: string, name: string, size: int, sshUrl: string, remoteUrl: string, webUrl: string)

  /** A member of an object; an absent member decodes like `null`. */
  function Member(m: map<string, Json>, key: string): Json
  {
    if key in m then m[key] else JNull
  }

  function AsInt(j: Json): Option<int>
  {
    match j
    case JNull => Some(0)
    case JNum(n) => Some(n)
    case _ => None
  }

  function AsString(j: Json): Option<string>
  {
    match j
    case JNull => Some("")
    case JStr(s) => Some(s)
    case _ => None
  }

  /** Into `map[string]interface{}`. */
  function AsFields(j: Json): Option<Fields>
  {
    match j
    case JNull => Some(map[])
    case JObj(m) => Some(m)
    case _ => None
  }

  /** Decodes every element with `elem`; fails if any element fails. */
  function AllOf<T>(a: seq<Json>, elem: Json -> Option<T>): (r: Option<seq<T>>)
    ensures r.Some? ==> |r.value| == |a| && forall i :: 0 <= i < |a| ==> elem(a[i]) == Some(r.value[i])
    ensures r.None? ==> exists i :: 0 <= i < |a| && elem(a[i]).None?
  {
    if |a| == 0 then Some([])
    else
      match (elem(a[0]), AllOf(a[1..], elem))
      case (Some(x), Some(xs)) => Some([x] + xs)
      case (None, _) => None
      case (_, None) =>
        var i :| 0 <= i < |a[1..]| && elem(a[1..][i]).None?;
        assert elem(a[i + 1]).None?;
        None
  }

  /** Into a Go slice `[]T`: `null` gives a nil (empty) slice. */
  function AsSlice<T>(j: Json, elem: Json -> Option<T>): Option<seq<T>>
  {
    match j
    case JNull => Some([])
    case JArr(a) => AllOf(a, elem)
    case _ => None
  }

  function DecodeWorkItem(j: Json): Option<WorkItem>
  {
    match j
    case JNull => Some(WorkItem(0, 0, map[], ""))
    case JObj(m) =>
      (match (AsInt(Member(m, "id")), AsInt(Member(m, "rev")), AsFields(Member(m, "fields")), AsString(Member(m, "url")))
       case (Some(id), Some(rev), Some(f), Some(u)) => Some(WorkItem(id, rev, f, u))
       case _ => None)
    case _ => None
  }

  function DecodeQueryItem(j: Json): Option<QueryItem>
  {
    match j
    case JNull => Some(QueryItem(0, map[]))
    case JObj(m) =>
      (match (AsInt(Member(m, "id")), AsFields(Member(m, "fields")))
       case (Some(id), Some(f)) => Some(QueryItem(id, f))
       case _ => None)
    case _ => None
  }

  function DecodeQueryItems(j: Json): Option<seq<QueryItem>>
  {
    AsSlice(j, DecodeQueryItem)
  }

  function DecodeRepo(j: Json): Option<Repo>
  {
    match j
    case JNull => Some(Repo("", "", 0, "", "", ""))
    case JObj(m) =>
      (match (AsString(Member(m, "id")), AsString(Member(m, "name")), AsInt(Member(m, "size")),
              AsString(Member(m, "sshUrl")), AsString(Member(m, "remoteUrl")), AsString(Member(m, "webUrl")))
       case (Some(id), Some(name), Some(size), Some(ssh), Some(remote), Some(web)) =>
         Some(Repo(id, name, size, ssh, remote, web))
       case _ => None)
    case _ => None
  }

  function DecodeRepos(j: Json): Option<seq<Repo>>
  {
    AsSlice(j, DecodeRepo)
  }

  /** `json.Unmarshal(out, &v)` for a decoder of `v`'s type: text that is
      not JSON fails like a value of the wrong shape. */
  function Unmarshal<T>(out: Output, decode: Json -> Option<T>): Option<T>
  {
    match out.json
    case None => None
    case Some(j) => decode(j)
  }
}
