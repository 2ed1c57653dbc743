/** The work-item pickers (cmd/picker.go): list the items that are not
    Closed, offer one option per item and return what the select form
    returned. The form itself is a parameter: given the options it yields
    the chosen value(s) or its own error. */
module Picker {
  import opened Errors
  import opened Strs
  import opened Json
  import opened Wi
  import opened Az
  import opened List

  /** One option of a select form: the text shown and the value returned. */
  datatype Choice = Choice(text: string, value: string)

  /** The item's title, or "(no title)" when it has none. */
  function TitleOr(fields: Fields): (t: string)
    ensures t != ""
    ensures FieldString(fields, "System.Title") != "" ==> t == FieldString(fields, "System.Title")
  {
    var t := FieldString(fields, "System.Title");
    if t == "" then "(no title)" else t
  }

  /** `strings.ToUpper(t[:1])`: the first byte of the type name, upper-cased.
      An ASCII first character is that byte. Any other character starts a
      multi-byte UTF-8 sequence whose lone lead byte is invalid UTF-8, and
      `strings.ToUpper` writes it as the replacement character U+FFFD. */
  function Initial(t: string): (r: string)
    ensures |r| == if t == "" then 0 else 1
    ensures t != "" && 'a' <= t[0] <= 'z' ==> r[0] == t[0] - 'a' + 'A'
    ensures t != "" && t[0] < 128 as char && !('a' <= t[0] <= 'z') ==> r[0] == t[0]
    ensures t != "" && t[0] >= 128 as char ==> r[0] == '\U{FFFD}'
  {
    if t == "" then ""
    else if t[0] < 128 as char then [ToUpperChar(t[0])]
    else ['\U{FFFD}']
  }

  /** The option offered for an item: "<id> | <T> | <title>", returning
      the decimal id. */
  function ItemChoice(it: QueryItem): Choice
  {
    var id := IntToString(it.id);
    Choice(id + " | " + Initial(FieldString(it.fields, "System.WorkItemType")) + " | " + TitleOr(it.fields), id)
  }

  /** The options, one per item, in the items' order. */
  method ItemOptions(items: seq<QueryItem>) returns (opts: seq<Choice>)
    ensures |opts| == |items|
    ensures forall i :: 0 <= i < |items| ==> opts[i] == ItemChoice(items[i])
  {
    opts := [];
    for i := 0 to |items|
      invariant |opts| == i
      invariant forall j :: 0 <= j < i ==> opts[j] == ItemChoice(items[j])
    {
      var it := items[i];
      var title := FieldString(it.fields, "System.Title");
      if title == "" {
        title := "(no title)";
      }
      var t := FieldString(it.fields, "System.WorkItemType");
      var initial := "";
      if t != "" {
        initial := if t[0] < 128 as char then [ToUpperChar(t[0])] else ['\U{FFFD}'];
      }
      var id := IntToString(it.id);
      opts := opts + [Choice(id + " | " + initial + " | " + title, id)];
    }
  }

  /** The options offered for `items`, one per item, in the items' order. */
  function OptionsBy(items: seq<QueryItem>, option: QueryItem -> Choice): (opts: seq<Choice>)
    ensures |opts| == |items|
    ensures forall i :: 0 <= i < |items| ==> opts[i] == option(items[i])
  {
    seq(|items|, i requires 0 <= i < |items| => option(items[i]))
  }

  /** An option returns its item's decimal id, and its label starts with
      that id. */
  lemma ChoiceShowsId(it: QueryItem)
    ensures ItemChoice(it).value == IntToString(it.id)
    ensures HasPrefix(ItemChoice(it).text, IntToString(it.id) + " | ")
  {
    var rest := Initial(FieldString(it.fields, "System.WorkItemType")) + " | " + TitleOr(it.fields);
    assert ItemChoice(it).text == (IntToString(it.id) + " | ") + rest;
    PrefixOfConcat(IntToString(it.id) + " | ", rest);
  }

  /** Decimal renderings of 64-bit values read back, and so differ for
      different values: the value an option returns names its item. */
  lemma DecimalIdentifies(m: int, n: int)
    requires InInt64(m) && InInt64(n)
    ensures Atoi(IntToString(m)) == Some(m)
    ensures IntToString(m) == IntToString(n) <==> m == n
  {
    AtoiIntToString(m);
    AtoiIntToString(n);
  }

  lemma PrefixOfConcat(x: string, y: string)
    ensures HasPrefix(x + y, x)
  {
    assert (x + y)[..|x|] == x;
  }

  /** A single-select picker over the listed items: the query's error,
      `empty` for an empty list, the form's error, `blank` for a blank
      value, else the value the form returned. */
  function Chosen(items: Result<seq<QueryItem>>, option: QueryItem -> Choice, empty: Error, blank: Error,
                  pick: seq<Choice> -> Result<string>): (r: Result<string>)
    ensures items.Fail? ==> r == Fail(items.error)
    ensures items == Ok([]) ==> r == Fail(empty)
    ensures items.Ok? && items.value != [] && pick(OptionsBy(items.value, option)).Fail? ==>
              r == pick(OptionsBy(items.value, option))
    ensures r.Ok? <==> items.Ok? && items.value != [] && pick(OptionsBy(items.value, option)).Ok?
                       && TrimSpace(pick(OptionsBy(items.value, option)).value) != ""
    ensures r.Ok? ==> r == pick(OptionsBy(items.value, option))
  {
    match items
    case Fail(e) => Fail(e)
    case Ok(xs) =>
      if xs == [] then Fail(empty)
      else
        match pick(OptionsBy(xs, option))
        case Fail(e) => Fail(e)
        case Ok(chosen) => if TrimSpace(chosen) == "" then Fail(blank) else Ok(chosen)
  }

  /** `pickNonClosedIDs`: as `Picked`, with an empty selection refused. */
  function PickedAll(items: Result<seq<QueryItem>>, pick: seq<Choice> -> Result<seq<string>>): (r: Result<seq<string>>)
    ensures items.Fail? ==> r == Fail(items.error)
    ensures items == Ok([]) ==> r == Fail(NoItemsToSelect)
    ensures r.Ok? <==> items.Ok? && items.value != [] && pick(OptionsBy(items.value, ItemChoice)).Ok?
                       && pick(OptionsBy(items.value, ItemChoice)).value != []
    ensures r.Ok? ==> r == pick(OptionsBy(items.value, ItemChoice)) && |r.value| > 0
  {
    match items
    case Fail(e) => Fail(e)
    case Ok(xs) =>
      if xs == [] then Fail(NoItemsToSelect)
      else
        match pick(OptionsBy(xs, ItemChoice))
        case Fail(e) => Fail(e)
        case Ok(chosen) => if |chosen| == 0 then Fail(NoSelection) else Ok(chosen)
  }

  /** The select step of a single-select picker, given the listed items
      and the options built for them. */
  method Choose(items: Result<seq<QueryItem>>, opts: seq<Choice>, ghost option: QueryItem -> Choice, empty: Error,
                blank: Error, pick: seq<Choice> -> Result<string>)
    returns (r: Result<string>)
    requires items.Ok? ==> opts == OptionsBy(items.value, option)
    ensures r == Chosen(items, option, empty, blank, pick)
  {
    match items
    case Fail(e) =>
      r := Fail(e);
    case Ok(xs) =>
      if xs == [] {
        r := Fail(empty);
      } else {
        var chosen := pick(opts);
        if chosen.Ok? && TrimSpace(chosen.value) == "" {
          r := Fail(blank);
        } else {
          r := chosen;
        }
      }
  }

  /** The select step of the multi-select picker. */
  method ChooseAll(items: Result<seq<QueryItem>>, pick: seq<Choice> -> Result<seq<string>>)
    returns (r: Result<seq<string>>)
    ensures r == PickedAll(items, pick)
  {
    if items.Fail? {
      return Fail(items.error);
    }
    if |items.value| == 0 {
      return Fail(NoItemsToSelect);
    }
    var opts := ItemOptions(items.value);
    assert opts == OptionsBy(items.value, ItemChoice);
    var chosen := pick(opts);
    if chosen.Fail? {
      return Fail(chosen.error);
    }
    if |chosen.value| == 0 {
      return Fail(NoSelection);
    }
    r := chosen;
  }

  /** `pickNonClosedID`: the items of every type that are not Closed, in
      the configured order. */
  method PickNonClosedID(c: Client, usePO: bool, pick: seq<Choice> -> Result<string>)
    returns (r: Result<string>, ghost trace: seq<seq<string>>)
    modifies c`attempts, c`echoed, c`calls
    ensures c.Ran(old(c.attempts), old(c.echoed), old(c.calls), trace)
    ensures trace == QueryCalls(c.Runner(), "", false, usePO)
    ensures r == Chosen(QueryResult(c.Runner(), "", false, usePO), ItemChoice, NoItemsToSelect, NoSelection, pick)
  {
    var items;
    items, trace := QueryItemsWithOrder(c, "", false, usePO);
    var opts := [];
    if items.Ok? {
      opts := ItemOptions(items.value);
      assert opts == OptionsBy(items.value, ItemChoice);
    }
    r := Choose(items, opts, ItemChoice, NoItemsToSelect, NoSelection, pick);
  }

  /** `pickNonClosedIDs`. */
  method PickNonClosedIDs(c: Client, usePO: bool, pick: seq<Choice> -> Result<seq<string>>)
    returns (r: Result<seq<string>>, ghost trace: seq<seq<string>>)
    modifies c`attempts, c`echoed, c`calls
    ensures c.Ran(old(c.attempts), old(c.echoed), old(c.calls), trace)
    ensures trace == QueryCalls(c.Runner(), "", false, usePO)
    ensures r == PickedAll(QueryResult(c.Runner(), "", false, usePO), pick)
  {
    var items;
    items, trace := QueryItemsWithOrder(c, "", false, usePO);
    r := ChooseAll(items, pick);
  }
}
