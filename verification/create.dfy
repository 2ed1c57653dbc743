/** What the create commands share (cmd/create_bug.go, cmd/create_task.go,
    cmd/create_story.go): choosing or checking the parent User Story,
    resolving the assignee flag, and the create call with the parent link
    and the output that follow it. */
module Create {
  import opened Errors
  import opened Strs
  import opened Json
  import opened Wi
  import opened Az
  import opened List
  import opened Render
  import opened Picker
  import State

  const Upn := SignedInUserArgs("userPrincipalName")

  // ---------------------------------------------------------------------
  // The parent User Story

  /** The option offered for a candidate parent: "<id> | <title>". */
  function ParentChoice(it: QueryItem): Choice
  {
    var id := IntToString(it.id);
    Choice(id + " | " + TitleOr(it.fields), id)
  }

  /** The parent options, one per story, in the stories' order. */
  method ParentOptions(items: seq<QueryItem>) returns (opts: seq<Choice>)
    ensures opts == OptionsBy(items, ParentChoice)
  {
    opts := [];
    for i := 0 to |items|
      invariant |opts| == i
      invariant forall j :: 0 <= j < i ==> opts[j] == ParentChoice(items[j])
    {
      var idStr := IntToString(items[i].id);
      var t := FieldString(items[i].fields, "System.Title");
      if t == "" {
        t := "(no title)";
      }
      opts := opts + [Choice(idStr + " | " + t, idStr)];
    }
  }

  /** The parent picker: the User Stories that are not Closed, in the
      configured order. */
  method PickParent(c: Client, usePO: bool, pick: seq<Choice> -> Result<string>)
    returns (r: Result<string>, ghost trace: seq<seq<string>>)
    modifies c`attempts, c`echoed, c`calls
    ensures c.Ran(old(c.attempts), old(c.echoed), old(c.calls), trace)
    ensures trace == Listing(c.Runner(), usePO)
    ensures r == PickedParent(c.Runner(), usePO, pick)
  {
    var items;
    items, trace := QueryItemsWithOrder(c, "User Story", false, usePO);
    var opts := [];
    if items.Ok? {
      opts := ParentOptions(items.value);
    }
    r := Choose(items, opts, ParentChoice, NoUserStories, NoParentSelected, pick);
  }

  /** A parent named by flag is shown first: a failed show is wrapped as
      "validate parent", and an item that does not decode or is not a User
      Story is refused. */
  function Validation(shown: Result<Shown>, pid: string): (err: Option<Error>)
    ensures err.None? <==> shown.Ok? && shown.value.item.Some?
                           && FieldString(shown.value.item.value.fields, "System.WorkItemType") == "User Story"
    ensures shown.Fail? ==> err == Some(Wrapped("validate parent", shown.error))
    ensures shown.Ok? && err.Some? ==> err == Some(NotAUserStory(pid))
  {
    match shown
    case Fail(e) => Some(Wrapped("validate parent", e))
    case Ok(s) =>
      if s.item.None? || FieldString(s.item.value.fields, "System.WorkItemType") != "User Story" then Some(NotAUserStory(pid))
      else None
  }

  method ValidateParent(c: Client, pid: string) returns (err: Option<Error>)
    modifies c`attempts, c`echoed, c`calls
    ensures c.Ran(old(c.attempts), old(c.echoed), old(c.calls), [ShowArgs(pid)])
    ensures err == Validation(ShownOf(c.Outcome(ShowArgs(pid))), pid)
  {
    var shown := c.ShowWorkItem(pid);
    if shown.Fail? {
      return Some(Wrapped("validate parent", shown.error));
    }
    if shown.value.item.None? || FieldString(shown.value.item.value.fields, "System.WorkItemType") != "User Story" {
      return Some(NotAUserStory(pid));
    }
    return None;
  }

  /** The commands the parent picker hands to `runAz`. */
  function Listing(run: seq<string> -> Result<Output>, usePO: bool): seq<seq<string>>
  {
    QueryCalls(run, "User Story", false, usePO)
  }

  /** What the parent picker returns. */
  function PickedParent(run: seq<string> -> Result<Output>, usePO: bool, pick: seq<Choice> -> Result<string>)
    : Result<string>
  {
    Chosen(QueryResult(run, "User Story", false, usePO), ParentChoice, NoUserStories, NoParentSelected, pick)
  }

  /** The parent before any check: the trimmed flag when it is not blank,
      else what the picker returned (`picked`). */
  function Proposed(flag: string, picked: Result<string>): Result<string>
  {
    if TrimSpace(flag) != "" then Ok(TrimSpace(flag)) else picked
  }

  /** The show that checks a proposed parent, when `check` holds. */
  function CheckCalls(p: Result<string>, check: bool): seq<seq<string>>
  {
    if check && p.Ok? then [ShowArgs(p.value)] else []
  }

  /** A proposed parent after the check, when `check` holds. */
  function CheckedParent(run: seq<string> -> Result<Output>, p: Result<string>, check: bool): Result<string>
  {
    if p.Fail? || !check then p
    else
      match Validation(ShownOf(run(ShowArgs(p.value))), p.value)
      case Some(e) => Fail(e)
      case None => p
  }

  /** The commands resolving the parent hands to `runAz`: the picker's
      (`listing`) when the trimmed flag is blank, then, when `check` holds
      and a parent was found, the show that validates it. */
  function ParentCalls(flag: string, listing: seq<seq<string>>, picked: Result<string>, check: bool): seq<seq<string>>
  {
    (if TrimSpace(flag) == "" then listing else []) + CheckCalls(Proposed(flag, picked), check)
  }

  /** The parent id, or the error that ends the command. */
  function Parent(run: seq<string> -> Result<Output>, flag: string, picked: Result<string>, check: bool): Result<string>
  {
    CheckedParent(run, Proposed(flag, picked), check)
  }

  /** A resolved parent is never blank when the picker's choice is not. */
  lemma ParentNotBlank(run: seq<string> -> Result<Output>, flag: string, picked: Result<string>, check: bool)
    requires picked.Ok? ==> TrimSpace(picked.value) != ""
    ensures var p := Parent(run, flag, picked, check);
      p.Ok? ==> TrimSpace(p.value) != ""
  {
    if TrimSpace(flag) != "" {
      TrimSpaceIdempotent(flag);
    }
  }

  /** A checked parent was shown, decoded, and is a User Story. */
  lemma ParentChecked(run: seq<string> -> Result<Output>, flag: string, picked: Result<string>)
    ensures var p := Parent(run, flag, picked, true);
      p.Ok? ==>
        var sh := ShownOf(run(ShowArgs(p.value)));
        sh.Ok? && sh.value.item.Some? && FieldString(sh.value.item.value.fields, "System.WorkItemType") == "User Story"
  {
  }

  /** A flag that is not blank is used trimmed, and no picker runs. */
  lemma FlagParent(run: seq<string> -> Result<Output>, flag: string, listing: seq<seq<string>>,
                   picked: Result<string>, check: bool)
    requires TrimSpace(flag) != ""
    ensures ParentCalls(flag, listing, picked, check) == (if check then [ShowArgs(TrimSpace(flag))] else [])
    ensures !check ==> Parent(run, flag, picked, check) == Ok(TrimSpace(flag))
  {
  }

  /** The picker's choice is never blank. */
  lemma PickedParentNotBlank(run: seq<string> -> Result<Output>, usePO: bool, pick: seq<Choice> -> Result<string>)
    ensures PickedParent(run, usePO, pick).Ok? ==> TrimSpace(PickedParent(run, usePO, pick).value) != ""
  {
  }

  /** The picker when the trimmed flag is blank, else the trimmed flag.
      `listing` and `picked` are the picker's commands and outcome, as
      `PickParent` states them; when the flag is used they are unused. */
  method Propose(c: Client, flag: string, usePO: bool, pick: seq<Choice> -> Result<string>)
    returns (r: Result<string>, ghost trace: seq<seq<string>>, ghost listing: seq<seq<string>>,
             ghost picked: Result<string>)
    modifies c`attempts, c`echoed, c`calls
    ensures c.Ran(old(c.attempts), old(c.echoed), old(c.calls), trace)
    ensures trace == if TrimSpace(flag) == "" then listing else []
    ensures r == Proposed(flag, picked)
    ensures picked.Ok? ==> TrimSpace(picked.value) != ""
  {
    var pid := TrimSpace(flag);
    if pid == "" {
      r, trace := PickParent(c, usePO, pick);
      PickedParentNotBlank(c.Runner(), usePO, pick);
      listing, picked := trace, r;
    } else {
      c.Idle(c.attempts, c.echoed, c.calls);
      r, trace := Ok(pid), [];
      listing, picked := [], r;
      TrimSpaceIdempotent(flag);
    }
  }

  /** The check of a proposed parent. */
  method CheckParent(c: Client, p: Result<string>, check: bool) returns (r: Result<string>)
    modifies c`attempts, c`echoed, c`calls
    ensures c.Ran(old(c.attempts), old(c.echoed), old(c.calls), CheckCalls(p, check))
    ensures r == CheckedParent(c.Runner(), p, check)
  {
    r := p;
    if p.Fail? || !check {
      c.Idle(c.attempts, c.echoed, c.calls);
      return;
    }
    var err := ValidateParent(c, p.value);
    if err.Some? {
      r := Fail(err.value);
    }
  }

  /** Resolves the parent: the picker when the trimmed flag is blank, then
      the check when `check` holds. */
  method ResolveParent(c: Client, flag: string, usePO: bool, check: bool, pick: seq<Choice> -> Result<string>)
    returns (r: Result<string>, ghost trace: seq<seq<string>>, ghost listing: seq<seq<string>>,
             ghost picked: Result<string>)
    modifies c`attempts, c`echoed, c`calls
    ensures c.Ran(old(c.attempts), old(c.echoed), old(c.calls), trace)
    ensures trace == ParentCalls(flag, listing, picked, check)
    ensures r == Parent(c.Runner(), flag, picked, check)
    ensures picked.Ok? ==> TrimSpace(picked.value) != ""
  {
    ghost var a0, e0, c0 := c.attempts, c.echoed, c.calls;
    var p;
    p, trace, listing, picked := Propose(c, flag, usePO, pick);
    ghost var a1, e1, c1 := c.attempts, c.echoed, c.calls;
    r := CheckParent(c, p, check);
    c.Chain(a0, e0, c0, trace, a1, e1, c1, CheckCalls(p, check), c.attempts, c.echoed, c.calls);
    trace := trace + CheckCalls(p, check);
  }

  /** `parentTitleByID`: the parent's title for the form's heading, empty
      when it cannot be shown. */
  function TitleOf(shown: Result<Shown>): (t: string)
    ensures shown.Fail? || shown.value.item.None? ==> t == ""
    ensures shown.Ok? && shown.value.item.Some? ==> t == FieldString(shown.value.item.value.fields, "System.Title")
  {
    if shown.Fail? || shown.value.item.None? then "" else FieldString(shown.value.item.value.fields, "System.Title")
  }

  method ParentTitle(c: Client, id: string) returns (t: string)
    modifies c`attempts, c`echoed, c`calls
    ensures c.Ran(old(c.attempts), old(c.echoed), old(c.calls), [ShowArgs(id)])
    ensures t == TitleOf(ShownOf(c.Outcome(ShowArgs(id))))
  {
    var shown := c.ShowWorkItem(id);
    if shown.Fail? || shown.value.item.None? {
      return "";
    }
    return FieldString(shown.value.item.value.fields, "System.Title");
  }

  // ---------------------------------------------------------------------
  // The assignee flag

  /** The lookup of the signed-in user happens exactly for "@me". */
  function AssigneeCalls(flag: string): seq<seq<string>>
  {
    if TrimSpace(flag) == "@me" then [Upn] else []
  }

  /** The assignee the flag sets: none when blank, the signed-in user for
      "@me" (a failed lookup wrapped as "get current user"), else the
      trimmed flag. */
  function Assignee(run: seq<string> -> Result<Output>, flag: string): (r: Result<Option<string>>)
    ensures TrimSpace(flag) == "" ==> r == Ok(None)
    ensures TrimSpace(flag) != "" && TrimSpace(flag) != "@me" ==> r == Ok(Some(TrimSpace(flag)))
    ensures TrimSpace(flag) == "@me" ==>
      r == match TrimmedText(run(Upn))
           case Fail(e) => Fail(Wrapped("get current user", e))
           case Ok(me) => Ok(Some(me))
  {
    var at := TrimSpace(flag);
    if at == "" then Ok(None)
    else if at == "@me" then
      match TrimmedText(run(Upn))
      case Fail(e) => Fail(Wrapped("get current user", e))
      case Ok(me) => Ok(Some(me))
    else Ok(Some(at))
  }

  method ResolveAssignee(c: Client, flag: string) returns (r: Result<Option<string>>)
    modifies c`attempts, c`echoed, c`calls
    ensures c.Ran(old(c.attempts), old(c.echoed), old(c.calls), AssigneeCalls(flag))
    ensures r == Assignee(c.Runner(), flag)
  {
    var at := TrimSpace(flag);
    if at == "" {
      c.Idle(c.attempts, c.echoed, c.calls);
      return Ok(None);
    }
    if at == "@me" {
      var me := c.CurrentUserUPN();
      if me.Fail? {
        return Fail(Wrapped("get current user", me.error));
      }
      return Ok(Some(me.value));
    }
    c.Idle(c.attempts, c.echoed, c.calls);
    return Ok(Some(at));
  }

  /** The interactive forms start from the same assignee, except that a
      failed lookup leaves it empty instead of ending the command. */
  function Prefill(run: seq<string> -> Result<Output>, flag: string): (s: string)
    ensures Assignee(run, flag).Ok? ==> s == match Assignee(run, flag).value case None => "" case Some(a) => a
    ensures Assignee(run, flag).Fail? ==> s == ""
  {
    if TrimSpace(flag) == "@me" then
      match TrimmedText(run(Upn))
      case Ok(me) => me
      case Fail(_) => ""
    else TrimSpace(flag)
  }

  method PrefillAssignee(c: Client, flag: string) returns (s: string)
    modifies c`attempts, c`echoed, c`calls
    ensures c.Ran(old(c.attempts), old(c.echoed), old(c.calls), AssigneeCalls(flag))
    ensures s == Prefill(c.Runner(), flag)
  {
    s := "";
    if TrimSpace(flag) == "@me" {
      var me := c.CurrentUserUPN();
      if me.Ok? {
        s := me.value;
      }
    } else {
      c.Idle(c.attempts, c.echoed, c.calls);
      if TrimSpace(flag) != "" {
        s := TrimSpace(flag);
      }
    }
  }

  /** `fields` with the assignee set, when there is one. */
  function WithAssignee(fields: map<string, string>, who: Option<string>): (m: map<string, string>)
    ensures who.None? ==> m == fields
    ensures who.Some? ==> m == fields[AssigneeKey := who.value]
  {
    match who
    case None => fields
    case Some(a) => fields[AssigneeKey := a]
  }

  /** `fields` with `key` set to `v` when `v` is not blank; the forms
      set only the values the user filled in. */
  function WithNonBlank(fields: map<string, string>, key: string, v: string): (m: map<string, string>)
    ensures TrimSpace(v) == "" ==> m == fields
    ensures TrimSpace(v) != "" ==> m == fields[key := v]
  {
    if TrimSpace(v) != "" then fields[key := v] else fields
  }

  /** `fields` with `key` set to the HTML of the Markdown `md`, when the
      Markdown is not blank. */
  function WithHtml(fields: map<string, string>, key: string, md: string, toHtml: string -> string)
    : (m: map<string, string>)
    ensures TrimSpace(md) == "" ==> m == fields
    ensures TrimSpace(md) != "" ==> m == fields[key := toHtml(md)]
  {
    if TrimSpace(md) != "" then fields[key := toHtml(md)] else fields
  }

  /** The field keys the create commands set are pairwise different. */
  lemma KeysDistinct()
    ensures StateKey != SeverityKey && AssigneeKey != SeverityKey && AssigneeKey != StateKey
    ensures DescriptionKey != SeverityKey && DescriptionKey != StateKey && DescriptionKey != AssigneeKey
    ensures CriteriaKey != StateKey && CriteriaKey != AssigneeKey && CriteriaKey != DescriptionKey
    ensures CriteriaKey != SeverityKey
  {
    assert StateKey[0] != SeverityKey[0];
    assert AssigneeKey[0] != SeverityKey[0];
    assert AssigneeKey[7] != StateKey[7];
    assert DescriptionKey[0] != SeverityKey[0];
    assert DescriptionKey[7] != StateKey[7];
    assert DescriptionKey[7] != AssigneeKey[7];
    assert CriteriaKey[0] != StateKey[0];
    assert CriteriaKey[0] != AssigneeKey[0];
    assert CriteriaKey[0] != DescriptionKey[0];
    assert CriteriaKey[22] != SeverityKey[22];
  }

  /** The commands before the Bug and Task forms open: the assignee
      lookup, then the parent shown for the heading. */
  function AskCalls(pid: string, assignee: string): seq<seq<string>>
  {
    AssigneeCalls(assignee) + [ShowArgs(pid)]
  }

  /** The heading the Bug and Task forms show: the parent's id and its
      title, the title empty when the parent cannot be shown. */
  function ParentHeading(run: seq<string> -> Result<Output>, what: string, pid: string): string
  {
    "Adding " + what + " to " + pid + ": " + TitleOf(ShownOf(run(ShowArgs(pid))))
  }

  method ShowHeading(c: Client, what: string, pid: string) returns (h: string)
    modifies c`attempts, c`echoed, c`calls
    ensures c.Ran(old(c.attempts), old(c.echoed), old(c.calls), [ShowArgs(pid)])
    ensures h == ParentHeading(c.Runner(), what, pid)
  {
    var t := ParentTitle(c, pid);
    h := "Adding " + what + " to " + pid + ": " + t;
  }

  // ---------------------------------------------------------------------
  // Create, link, print

  /** What a command prints on success: a work item rendered under a
      heading, or output that did not decode, as it is. */
  datatype Print = RenderOf(heading: string, wi: WorkItem) | Raw(out: Output)

  /** `r` is what `p` says: the same error, a rendering of the item, or
      the raw output. */
  ghost predicate Shows(p: Result<Print>, r: Result<Printed>)
  {
    match p
    case Fail(e) => r == Fail(e)
    case Ok(RenderOf(heading, wi)) => r.Ok? && r.value.Rendered? && Renders(heading, wi, r.value.md)
    case Ok(Raw(out)) => r == Ok(RawJson(out))
  }

  /** Whether the follow-up update runs: a state other than blank or
      "New". */
  predicate SetsState(state: string)
  {
    TrimSpace(state) != "" && TrimSpace(state) != "New"
  }

  function FollowUpCalls(wi: WorkItem, state: string): seq<seq<string>>
  {
    if SetsState(state) then [State.SetState(IntToString(wi.id), state)] else []
  }

  /** The item shown after linking: without a state to set, the created
      item; otherwise the updated item when the update succeeds and
      decodes, the created one in every other case (the update's error is
      dropped). */
  function FollowedUp(run: seq<string> -> Result<Output>, wi: WorkItem, state: string): WorkItem
  {
    if !SetsState(state) then wi
    else
      match run(State.SetState(IntToString(wi.id), state))
      case Ok(out) => (match Unmarshal(out, DecodeWorkItem) case Some(updated) => updated case None => wi)
      case Fail(_) => wi
  }

  function FollowUpResult(run: seq<string> -> Result<Output>, wi: WorkItem, state: string, heading: string): Print
  {
    RenderOf(heading, FollowedUp(run, wi, state))
  }

  /** The state update, when there is one to run. */
  method ApplyState(c: Client, wi: WorkItem, state: string) returns (item: WorkItem)
    modifies c`attempts, c`echoed, c`calls
    ensures c.Ran(old(c.attempts), old(c.echoed), old(c.calls), FollowUpCalls(wi, state))
    ensures item == FollowedUp(c.Runner(), wi, state)
  {
    item := wi;
    if SetsState(state) {
      var raw, order := c.UpdateWorkItemFields(IntToString(wi.id), map[StateKey := state]);
      KeyOrderSingleton(StateKey, state, order);
      if raw.Ok? {
        var updated := Unmarshal(raw.value, DecodeWorkItem);
        if updated.Some? {
          item := updated.value;
        }
      }
    } else {
      c.Idle(c.attempts, c.echoed, c.calls);
    }
  }

  method FollowUp(c: Client, wi: WorkItem, state: string, heading: string) returns (r: Result<Printed>)
    modifies c`attempts, c`echoed, c`calls
    ensures c.Ran(old(c.attempts), old(c.echoed), old(c.calls), FollowUpCalls(wi, state))
    ensures Shows(Ok(FollowUpResult(c.Runner(), wi, state, heading)), r)
  {
    var item := ApplyState(c, wi, state);
    var md := RenderWorkItem(heading, Some(item));
    r := Ok(Rendered(md.value));
  }

  /** The link making `wi` a child of `pid`. */
  function LinkArgs(wi: WorkItem, pid: string): seq<string>
  {
    RelationArgs(IntToString(wi.id), "parent", pid)
  }

  function AttachCalls(run: seq<string> -> Result<Output>, wi: WorkItem, pid: string, state: string)
    : seq<seq<string>>
  {
    [LinkArgs(wi, pid)] + (if run(LinkArgs(wi, pid)).Fail? then [] else FollowUpCalls(wi, state))
  }

  /** After the create call: a failed link is reported with the new id and
      the parent, otherwise the follow-up decides what is printed. */
  function AttachResult(run: seq<string> -> Result<Output>, wi: WorkItem, kind: string, heading: string, pid: string,
                        state: string): Result<Print>
  {
    match run(LinkArgs(wi, pid))
    case Fail(e) => Fail(RelationFailed(kind, wi.id, pid, e))
    case Ok(_) => Ok(FollowUpResult(run, wi, state, heading))
  }

  method Attach(c: Client, wi: WorkItem, kind: string, heading: string, pid: string, state: string)
    returns (r: Result<Printed>)
    modifies c`attempts, c`echoed, c`calls
    ensures c.Ran(old(c.attempts), old(c.echoed), old(c.calls), AttachCalls(c.Runner(), wi, pid, state))
    ensures Shows(AttachResult(c.Runner(), wi, kind, heading, pid, state), r)
  {
    ghost var a0, e0, c0 := c.attempts, c.echoed, c.calls;
    var rel := c.AddWorkItemRelation(IntToString(wi.id), "parent", pid);
    if rel.Fail? {
      return Fail(RelationFailed(kind, wi.id, pid, rel.error));
    }
    ghost var a1, e1, c1 := c.attempts, c.echoed, c.calls;
    r := FollowUp(c, wi, state, heading);
    c.Chain(a0, e0, c0, [LinkArgs(wi, pid)], a1, e1, c1, FollowUpCalls(wi, state), c.attempts, c.echoed, c.calls);
  }

  /** The commands after the create call: none when its output does not
      decode as a work item. */
  function DecodedCalls(run: seq<string> -> Result<Output>, out: Output, pid: string, state: string)
    : seq<seq<string>>
  {
    match Unmarshal(out, DecodeWorkItem)
    case None => []
    case Some(wi) => AttachCalls(run, wi, pid, state)
  }

  /** Output that does not decode as a work item is printed raw; otherwise
      the new item is linked to `pid`. */
  function DecodedResult(run: seq<string> -> Result<Output>, out: Output, kind: string, heading: string, pid: string,
                         state: string): Result<Print>
  {
    match Unmarshal(out, DecodeWorkItem)
    case None => Ok(Raw(out))
    case Some(wi) => AttachResult(run, wi, kind, heading, pid, state)
  }

  method Decode(c: Client, out: Output, kind: string, heading: string, pid: string, state: string)
    returns (r: Result<Printed>)
    modifies c`attempts, c`echoed, c`calls
    ensures c.Ran(old(c.attempts), old(c.echoed), old(c.calls), DecodedCalls(c.Runner(), out, pid, state))
    ensures Shows(DecodedResult(c.Runner(), out, kind, heading, pid, state), r)
  {
    var wi := Unmarshal(out, DecodeWorkItem);
    if wi.None? {
      c.Idle(c.attempts, c.echoed, c.calls);
      return Ok(RawJson(out));
    }
    r := Attach(c, wi.value, kind, heading, pid, state);
  }

  /** The create call and the commands its output leads to. */
  function LinkCalls(run: seq<string> -> Result<Output>, wiType: string, title: string, fields: map<string, string>,
                     order: seq<string>, pid: string, state: string): seq<seq<string>>
  {
    var create := CreateArgs(wiType, title, fields, order);
    [create] + match run(create) case Fail(_) => [] case Ok(out) => DecodedCalls(run, out, pid, state)
  }

  /** The create call's error, or what its output leads to. */
  function LinkResult(run: seq<string> -> Result<Output>, wiType: string, title: string, fields: map<string, string>,
                      order: seq<string>, kind: string, heading: string, pid: string, state: string): Result<Print>
  {
    match run(CreateArgs(wiType, title, fields, order))
    case Fail(e) => Fail(e)
    case Ok(out) => DecodedResult(run, out, kind, heading, pid, state)
  }

  method Link(c: Client, wiType: string, title: string, fields: map<string, string>, kind: string, heading: string,
              pid: string, state: string)
    returns (r: Result<Printed>, ghost order: seq<string>)
    modifies c`attempts, c`echoed, c`calls
    ensures IsKeyOrder(order, fields)
    ensures c.Ran(old(c.attempts), old(c.echoed), old(c.calls), LinkCalls(c.Runner(), wiType, title, fields, order, pid, state))
    ensures Shows(LinkResult(c.Runner(), wiType, title, fields, order, kind, heading, pid, state), r)
  {
    ghost var a0, e0, c0 := c.attempts, c.echoed, c.calls;
    var raw;
    raw, order := c.CreateWorkItem(wiType, title, fields, "");
    ghost var create := CreateArgs(wiType, title, fields, order);
    if raw.Fail? {
      assert [create] + [] == [create];
      return Fail(raw.error), order;
    }
    ghost var a1, e1, c1 := c.attempts, c.echoed, c.calls;
    r := Decode(c, raw.value, kind, heading, pid, state);
    c.Chain(a0, e0, c0, [create], a1, e1, c1, DecodedCalls(c.Runner(), raw.value, pid, state), c.attempts, c.echoed, c.calls);
  }

  /** The create call comes first and the link second, when the output
      decodes; every error is the create call's or the link's, and the
      follow-up never fails. */
  lemma LinkSpec(run: seq<string> -> Result<Output>, wiType: string, title: string, fields: map<string, string>,
                 order: seq<string>, kind: string, heading: string, pid: string, state: string)
    ensures var calls := LinkCalls(run, wiType, title, fields, order, pid, state);
      var create := CreateArgs(wiType, title, fields, order);
      var res := LinkResult(run, wiType, title, fields, order, kind, heading, pid, state);
      && calls[0] == create
      && (run(create).Fail? ==> calls == [create] && res == Fail(run(create).error))
      && (run(create).Ok? && Unmarshal(run(create).value, DecodeWorkItem).None? ==>
            calls == [create] && res == Ok(Raw(run(create).value)))
      && (run(create).Ok? && Unmarshal(run(create).value, DecodeWorkItem).Some? ==>
            var wi := Unmarshal(run(create).value, DecodeWorkItem).value;
            && |calls| >= 2 && calls[1] == LinkArgs(wi, pid)
            && (res.Fail? <==> run(LinkArgs(wi, pid)).Fail?)
            && (res.Fail? ==> res.error == RelationFailed(kind, wi.id, pid, run(LinkArgs(wi, pid)).error)))
  {
  }

  /** A run that does `t` then `u`, where `t` is fixed in advance: its
      trace splits back into the two. */
  lemma SplitTrace(t: seq<seq<string>>, u: seq<seq<string>>)
    ensures |t + u| >= |t| && (t + u)[..|t|] == t && (t + u)[|t|..] == u
  {
  }
}
