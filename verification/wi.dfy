/** Reading values out of a work item's `fields` map (internal/util/wi.go). */
module Wi {
  import opened Errors
  import opened Strs
  import opened Json

  // The fields the commands read and write.
  const TitleKey := "System.Title"
  const StateKey := "System.State"
  const TypeKey := "System.WorkItemType"
  const AssigneeKey := "System.AssignedTo"
  const DescriptionKey := "System.Description"
  const CriteriaKey := "Microsoft.VSTS.Common.AcceptanceCriteria"
  const SeverityKey := "Microsoft.VSTS.Common.Severity"
  /** The severity a new Bug gets when none is given. */
  const MediumSeverity := "3 - Medium"

  /** `FieldString`: the string stored under `key`, or "" when the map is
      nil, the key is missing or the value is not a string. */
  function FieldString(fields: Fields, key: string): (s: string)
    ensures key in fields && fields[key].JStr? ==> s == fields[key].s
    ensures key !in fields || !fields[key].JStr? ==> s == ""
  {
    if key in fields then
      match fields[key]
      case JStr(v) => v
      case _ => ""
    else ""
  }

  /** Storing a string and reading it back gives the string; storing under
      another key leaves the value read unchanged. */
  lemma FieldStringStore(fields: Fields, key: string, other: string, v: string)
    ensures FieldString(fields[key := JStr(v)], key) == v
    ensures other != key ==> FieldString(fields[key := JStr(v)], other) == FieldString(fields, other)
  {
  }

  /** A board's dynamic column field: `WEF_<board>_Kanban.Column`. */
  predicate IsKanbanKey(k: string)
  {
    HasPrefix(k, "WEF_") && Contains(k, "Kanban.Column")
  }

  /** `name` is a Kanban column field of `fields` holding the string `value`. */
  predicate KanbanField(fields: Fields, name: string, value: string)
  {
    name in fields && IsKanbanKey(name) && fields[name] == JStr(value)
  }

  predicate HasKanbanField(fields: Fields)
  {
    exists k :: k in fields && IsKanbanKey(k) && fields[k].JStr?
  }

  /** `FindKanbanColumn`: Go ranges over the map in an unspecified order and
      returns the first Kanban field holding a string, so the model picks
      any such field; with none, both results are empty. */
  method FindKanbanColumn(fields: Fields) returns (name: string, value: string)
    ensures HasKanbanField(fields) ==> KanbanField(fields, name, value)
    ensures !HasKanbanField(fields) ==> name == "" && value == ""
    ensures name != "" <==> HasKanbanField(fields)
  {
    var keys := fields.Keys;
    while keys != {}
      invariant keys <= fields.Keys
      invariant forall k :: k in fields && k !in keys ==> !(IsKanbanKey(k) && fields[k].JStr?)
      decreases keys
    {
      var k :| k in keys;
      if IsKanbanKey(k) {
        match fields[k]
        case JStr(s) =>
          assert |k| >= 4;
          return k, s;
        case _ =>
      }
      keys := keys - {k};
    }
    return "", "";
  }
}
