/** `ab create task` (cmd/create_task.go): a Task created under a User
    Story, from flags or from an interactive form. The Task is created
    without a state; the form's state is set by an update afterwards. */
module CreateTask {
  import opened Errors
  import opened Strs
  import opened Json
  import opened Wi
  import opened Az
  import opened Render
  import opened Picker
  import opened Create
  import State

  // ---------------------------------------------------------------------
  // The flag path

  /** The fields a Task is created with from flags: no state, and the
      assignee when there is one. */
  function TaskFields(who: Option<string>): (f: map<string, string>)
    ensures StateKey !in f
    ensures f.Keys == if who.Some? then {AssigneeKey} else {}
    ensures who.Some? ==> f[AssigneeKey] == who.value
  {
    KeysDistinct();
    WithAssignee(map[], who)
  }

  /** The commands once the parent is known: the assignee lookup, then,
      unless it fails, the create call and what follows it. */
  function FiledCalls(run: seq<string> -> Result<Output>, title: string, assignee: string, pid: string,
                      order: seq<string>): seq<seq<string>>
  {
    AssigneeCalls(assignee) +
      match Assignee(run, assignee)
      case Fail(_) => []
      case Ok(who) => LinkCalls(run, "Task", title, TaskFields(who), order, pid, "")
  }

  function FiledResult(run: seq<string> -> Result<Output>, title: string, assignee: string, pid: string,
                       order: seq<string>): Result<Print>
  {
    match Assignee(run, assignee)
    case Fail(e) => Fail(e)
    case Ok(who) => LinkResult(run, "Task", title, TaskFields(who), order, "task", "Task Created", pid, "")
  }

  /** `FiledCalls` and `FiledResult` case by case. */
  lemma FiledSteps(run: seq<string> -> Result<Output>, title: string, assignee: string, pid: string,
                   order: seq<string>)
    ensures var who := Assignee(run, assignee);
      var calls := FiledCalls(run, title, assignee, pid, order);
      var res := FiledResult(run, title, assignee, pid, order);
      && (who.Fail? ==> calls == AssigneeCalls(assignee) && res == Fail(who.error))
      && (who.Ok? ==>
            && calls == AssigneeCalls(assignee) + LinkCalls(run, "Task", title, TaskFields(who.value), order, pid, "")
            && res == LinkResult(run, "Task", title, TaskFields(who.value), order, "task", "Task Created", pid, ""))
  {
    assert AssigneeCalls(assignee) + [] == AssigneeCalls(assignee);
  }

  method File(c: Client, title: string, assignee: string, pid: string)
    returns (r: Result<Printed>, ghost order: seq<string>)
    modifies c`attempts, c`echoed, c`calls
    ensures Assignee(c.Runner(), assignee).Ok? ==> IsKeyOrder(order, TaskFields(Assignee(c.Runner(), assignee).value))
    ensures c.Ran(old(c.attempts), old(c.echoed), old(c.calls), FiledCalls(c.Runner(), title, assignee, pid, order))
    ensures Shows(FiledResult(c.Runner(), title, assignee, pid, order), r)
  {
    ghost var a0, e0, c0 := c.attempts, c.echoed, c.calls;
    var who := ResolveAssignee(c, assignee);
    match who
    case Fail(e) =>
      r, order := Fail(e), [];
      FiledSteps(c.Runner(), title, assignee, pid, order);
    case Ok(w) =>
      ghost var a1, e1, c1 := c.attempts, c.echoed, c.calls;
      r, order := Link(c, "Task", title, TaskFields(w), "task", "Task Created", pid, "");
      c.Chain(a0, e0, c0, AssigneeCalls(assignee), a1, e1, c1,
              LinkCalls(c.Runner(), "Task", title, TaskFields(w), order, pid, ""), c.attempts, c.echoed, c.calls);
      FiledSteps(c.Runner(), title, assignee, pid, order);
  }

  /** The flag path checks the parent whenever the `--parent` flag is not
      empty as given, even when it is blank once trimmed and the picker
      chose the parent. */
  predicate Checks(parent: string)
  {
    parent != ""
  }

  /** The flag path's commands: the parent's (`listing` and `picked` are
      the parent picker's commands and outcome), then, once the parent is
      known, as `FiledCalls` says. */
  function TaskCalls(run: seq<string> -> Result<Output>, title: string, parent: string, assignee: string,
                     listing: seq<seq<string>>, picked: Result<string>, order: seq<string>): seq<seq<string>>
  {
    ParentCalls(parent, listing, picked, Checks(parent)) +
      match Parent(run, parent, picked, Checks(parent))
      case Fail(_) => []
      case Ok(pid) => FiledCalls(run, title, assignee, pid, order)
  }

  function TaskResult(run: seq<string> -> Result<Output>, title: string, parent: string, assignee: string,
                      picked: Result<string>, order: seq<string>): Result<Print>
  {
    match Parent(run, parent, picked, Checks(parent))
    case Fail(e) => Fail(e)
    case Ok(pid) => FiledResult(run, title, assignee, pid, order)
  }

  /** `TaskCalls` and `TaskResult` case by case. */
  lemma TaskSteps(run: seq<string> -> Result<Output>, title: string, parent: string, assignee: string,
                  listing: seq<seq<string>>, picked: Result<string>, order: seq<string>)
    ensures var p := Parent(run, parent, picked, Checks(parent));
      var calls := TaskCalls(run, title, parent, assignee, listing, picked, order);
      var res := TaskResult(run, title, parent, assignee, picked, order);
      && (p.Fail? ==> calls == ParentCalls(parent, listing, picked, Checks(parent)) && res == Fail(p.error))
      && (p.Ok? ==>
            && calls == ParentCalls(parent, listing, picked, Checks(parent)) + FiledCalls(run, title, assignee, p.value, order)
            && res == FiledResult(run, title, assignee, p.value, order))
  {
    var pc := ParentCalls(parent, listing, picked, Checks(parent));
    assert pc + [] == pc;
  }

  /** `create task "<title>"`. */
  method CreateTask(c: Client, title: string, parent: string, assignee: string, usePO: bool,
                    pick: seq<Choice> -> Result<string>)
    returns (r: Result<Printed>, ghost listing: seq<seq<string>>, ghost picked: Result<string>,
             ghost order: seq<string>)
    modifies c`attempts, c`echoed, c`calls
    ensures c.Ran(old(c.attempts), old(c.echoed), old(c.calls),
                  TaskCalls(c.Runner(), title, parent, assignee, listing, picked, order))
    ensures Shows(TaskResult(c.Runner(), title, parent, assignee, picked, order), r)
    ensures picked.Ok? ==> TrimSpace(picked.value) != ""
  {
    ghost var a0, e0, c0 := c.attempts, c.echoed, c.calls;
    var pid;
    ghost var trace;
    pid, trace, listing, picked := ResolveParent(c, parent, usePO, parent != "", pick);
    match pid
    case Fail(e) =>
      r, order := Fail(e), [];
      TaskSteps(c.Runner(), title, parent, assignee, listing, picked, order);
    case Ok(p) =>
      ghost var a1, e1, c1 := c.attempts, c.echoed, c.calls;
      r, order := File(c, title, assignee, p);
      c.Chain(a0, e0, c0, trace, a1, e1, c1, FiledCalls(c.Runner(), title, assignee, p, order),
              c.attempts, c.echoed, c.calls);
      TaskSteps(c.Runner(), title, parent, assignee, listing, picked, order);
  }

  /** A Task is created under a parent given by flag only after that
      parent was shown and found to be a User Story. */
  lemma FlagParentIsStory(run: seq<string> -> Result<Output>, title: string, parent: string, assignee: string,
                          listing: seq<seq<string>>, picked: Result<string>, order: seq<string>)
    requires TrimSpace(parent) != ""
    requires TaskResult(run, title, parent, assignee, picked, order).Ok?
    ensures TaskCalls(run, title, parent, assignee, listing, picked, order)[0] == ShowArgs(TrimSpace(parent))
    ensures var sh := ShownOf(run(ShowArgs(TrimSpace(parent))));
      sh.Ok? && sh.value.item.Some? && FieldString(sh.value.item.value.fields, TypeKey) == "User Story"
  {
    assert parent != "";
    FlagParent(run, parent, listing, picked, true);
    ParentChecked(run, parent, picked);
  }

  /** A `--parent` of blanks runs the picker and then also shows the
      picked story to check it. */
  lemma BlankFlagChecksPicked(run: seq<string> -> Result<Output>, title: string, parent: string, assignee: string,
                              listing: seq<seq<string>>, picked: Result<string>, order: seq<string>)
    requires parent != "" && TrimSpace(parent) == ""
    requires picked.Ok?
    ensures ParentCalls(parent, listing, picked, Checks(parent)) == listing + [ShowArgs(picked.value)]
    ensures TaskResult(run, title, parent, assignee, picked, order).Ok? ==>
      var sh := ShownOf(run(ShowArgs(picked.value)));
      sh.Ok? && sh.value.item.Some? && FieldString(sh.value.item.value.fields, TypeKey) == "User Story"
  {
    ParentChecked(run, parent, picked);
  }

  /** Once parent and assignee are resolved, the Task is created with the
      assignee alone (never a state) and then linked to the parent; a
      failed lookup of "@me" creates nothing. */
  lemma FlagTaskCreated(run: seq<string> -> Result<Output>, title: string, assignee: string, pid: string,
                        order: seq<string>)
    ensures Assignee(run, assignee).Fail? ==>
      FiledCalls(run, title, assignee, pid, order) == AssigneeCalls(assignee)
      && FiledResult(run, title, assignee, pid, order) == Fail(Assignee(run, assignee).error)
    ensures Assignee(run, assignee).Ok? ==>
      var f := TaskFields(Assignee(run, assignee).value);
      && FiledCalls(run, title, assignee, pid, order)
           == AssigneeCalls(assignee) + LinkCalls(run, "Task", title, f, order, pid, "")
      && StateKey !in f
      && (TrimSpace(assignee) == "" ==> f == map[])
  {
    FiledSteps(run, title, assignee, pid, order);
  }

  // ---------------------------------------------------------------------
  // The interactive path

  /** The values of the Task form. */
  datatype TaskForm = TaskForm(title: string, state: string, assignee: string, description: string, proceed: bool)

  /** The form's starting values: state New and the assignee from the
      flag. */
  function TaskStart(assignee: string): (f: TaskForm)
    ensures f.state == "New" && f.assignee == assignee
    ensures f.title == "" && f.description == "" && !f.proceed
  {
    TaskForm("", "New", assignee, "", false)
  }

  /** The fields a Task is created with from the form: no state, the
      assignee when not blank, and the description, as HTML, when its
      Markdown is not blank. */
  function FormFields(f: TaskForm, toHtml: string -> string): (m: map<string, string>)
  {
    WithHtml(WithNonBlank(map[], AssigneeKey, f.assignee), DescriptionKey, f.description, toHtml)
  }

  lemma FormFieldsSpec(f: TaskForm, toHtml: string -> string)
    ensures var m := FormFields(f, toHtml);
      && StateKey !in m
      && (AssigneeKey in m <==> TrimSpace(f.assignee) != "")
      && (AssigneeKey in m ==> m[AssigneeKey] == f.assignee)
      && (DescriptionKey in m <==> TrimSpace(f.description) != "")
      && (DescriptionKey in m ==> m[DescriptionKey] == toHtml(f.description))
      && m.Keys <= {AssigneeKey, DescriptionKey}
  {
    KeysDistinct();
  }

  /** What the form returns, given the heading and the starting values. */
  function Answer(run: seq<string> -> Result<Output>, pid: string, assignee: string,
                  fill: (string, TaskForm) -> Result<TaskForm>): Result<TaskForm>
  {
    fill(ParentHeading(run, "Task", pid), TaskStart(Prefill(run, assignee)))
  }

  method Ask(c: Client, pid: string, assignee: string, fill: (string, TaskForm) -> Result<TaskForm>)
    returns (f: Result<TaskForm>)
    modifies c`attempts, c`echoed, c`calls
    ensures c.Ran(old(c.attempts), old(c.echoed), old(c.calls), AskCalls(pid, assignee))
    ensures f == Answer(c.Runner(), pid, assignee, fill)
  {
    ghost var a0, e0, c0 := c.attempts, c.echoed, c.calls;
    var who := PrefillAssignee(c, assignee);
    ghost var a1, e1, c1 := c.attempts, c.echoed, c.calls;
    var heading := ShowHeading(c, "Task", pid);
    c.Chain(a0, e0, c0, AssigneeCalls(assignee), a1, e1, c1, [ShowArgs(pid)], c.attempts, c.echoed, c.calls);
    f := fill(heading, TaskStart(who));
  }

  /** The commands the form's answer `a` leads to: none when the form
      fails or is not confirmed, else the create call, the link and the
      state update. */
  function AnswerCalls(run: seq<string> -> Result<Output>, pid: string, a: Result<TaskForm>, toHtml: string -> string,
                       order: seq<string>): seq<seq<string>>
  {
    match a
    case Fail(_) => []
    case Ok(f) => if !f.proceed then [] else LinkCalls(run, "Task", f.title, FormFields(f, toHtml), order, pid, f.state)
  }

  /** The form's error, "cancelled", or what the create call, the link and
      the state update lead to. */
  function AnswerResult(run: seq<string> -> Result<Output>, pid: string, a: Result<TaskForm>, toHtml: string -> string,
                        order: seq<string>): Result<Print>
  {
    match a
    case Fail(e) => Fail(e)
    case Ok(f) =>
      if !f.proceed then Fail(FormCancelled)
      else LinkResult(run, "Task", f.title, FormFields(f, toHtml), order, "task", "Task Created", pid, f.state)
  }

  /** Acts on the form's answer. */
  method Submit(c: Client, pid: string, a: Result<TaskForm>, toHtml: string -> string)
    returns (r: Result<Printed>, ghost order: seq<string>)
    modifies c`attempts, c`echoed, c`calls
    ensures a.Ok? && a.value.proceed ==> IsKeyOrder(order, FormFields(a.value, toHtml))
    ensures c.Ran(old(c.attempts), old(c.echoed), old(c.calls), AnswerCalls(c.Runner(), pid, a, toHtml, order))
    ensures Shows(AnswerResult(c.Runner(), pid, a, toHtml, order), r)
  {
    match a
    case Fail(e) =>
      c.Idle(c.attempts, c.echoed, c.calls);
      r, order := Fail(e), [];
    case Ok(v) =>
      if !v.proceed {
        c.Idle(c.attempts, c.echoed, c.calls);
        r, order := Fail(FormCancelled), [];
      } else {
        r, order := Link(c, "Task", v.title, FormFields(v, toHtml), "task", "Task Created", pid, v.state);
      }
  }

  /** The commands once the parent is known: those before the form, then
      those its answer leads to. */
  function FormCalls(run: seq<string> -> Result<Output>, pid: string, assignee: string,
                     fill: (string, TaskForm) -> Result<TaskForm>, toHtml: string -> string, order: seq<string>)
    : seq<seq<string>>
  {
    AskCalls(pid, assignee) + AnswerCalls(run, pid, Answer(run, pid, assignee, fill), toHtml, order)
  }

  function FormResult(run: seq<string> -> Result<Output>, pid: string, assignee: string,
                      fill: (string, TaskForm) -> Result<TaskForm>, toHtml: string -> string, order: seq<string>)
    : Result<Print>
  {
    AnswerResult(run, pid, Answer(run, pid, assignee, fill), toHtml, order)
  }

  method FileForm(c: Client, pid: string, assignee: string, fill: (string, TaskForm) -> Result<TaskForm>,
                  toHtml: string -> string)
    returns (r: Result<Printed>, ghost order: seq<string>)
    modifies c`attempts, c`echoed, c`calls
    ensures c.Ran(old(c.attempts), old(c.echoed), old(c.calls), FormCalls(c.Runner(), pid, assignee, fill, toHtml, order))
    ensures Shows(FormResult(c.Runner(), pid, assignee, fill, toHtml, order), r)
  {
    ghost var a0, e0, c0 := c.attempts, c.echoed, c.calls;
    var f := Ask(c, pid, assignee, fill);
    ghost var a1, e1, c1 := c.attempts, c.echoed, c.calls;
    r, order := Submit(c, pid, f, toHtml);
    c.Chain(a0, e0, c0, AskCalls(pid, assignee), a1, e1, c1, AnswerCalls(c.Runner(), pid, f, toHtml, order),
            c.attempts, c.echoed, c.calls);
  }

  /** `interactiveCreateTask`'s commands: the parent from the flag or the
      picker, never checked, then as `FormCalls` says. */
  function InteractiveCalls(run: seq<string> -> Result<Output>, parent: string, assignee: string,
                            fill: (string, TaskForm) -> Result<TaskForm>, toHtml: string -> string,
                            listing: seq<seq<string>>, picked: Result<string>, order: seq<string>): seq<seq<string>>
  {
    ParentCalls(parent, listing, picked, false) +
      match Parent(run, parent, picked, false)
      case Fail(_) => []
      case Ok(pid) => FormCalls(run, pid, assignee, fill, toHtml, order)
  }

  function InteractiveResult(run: seq<string> -> Result<Output>, parent: string, assignee: string,
                             fill: (string, TaskForm) -> Result<TaskForm>, toHtml: string -> string,
                             picked: Result<string>, order: seq<string>): Result<Print>
  {
    match Parent(run, parent, picked, false)
    case Fail(e) => Fail(e)
    case Ok(pid) => FormResult(run, pid, assignee, fill, toHtml, order)
  }

  /** `InteractiveCalls` and `InteractiveResult` case by case. */
  lemma InteractiveSteps(run: seq<string> -> Result<Output>, parent: string, assignee: string,
                         fill: (string, TaskForm) -> Result<TaskForm>, toHtml: string -> string,
                         listing: seq<seq<string>>, picked: Result<string>, order: seq<string>)
    ensures var p := Parent(run, parent, picked, false);
      var calls := InteractiveCalls(run, parent, assignee, fill, toHtml, listing, picked, order);
      var res := InteractiveResult(run, parent, assignee, fill, toHtml, picked, order);
      && (p.Fail? ==> calls == ParentCalls(parent, listing, picked, false) && res == Fail(p.error))
      && (p.Ok? ==>
            && calls == ParentCalls(parent, listing, picked, false) + FormCalls(run, p.value, assignee, fill, toHtml, order)
            && res == FormResult(run, p.value, assignee, fill, toHtml, order))
  {
    assert ParentCalls(parent, listing, picked, false) + [] == ParentCalls(parent, listing, picked, false);
  }

  method CreateTaskInteractively(c: Client, parent: string, assignee: string, usePO: bool,
                                 pick: seq<Choice> -> Result<string>, fill: (string, TaskForm) -> Result<TaskForm>,
                                 toHtml: string -> string)
    returns (r: Result<Printed>, ghost listing: seq<seq<string>>, ghost picked: Result<string>,
             ghost order: seq<string>)
    modifies c`attempts, c`echoed, c`calls
    ensures c.Ran(old(c.attempts), old(c.echoed), old(c.calls),
                  InteractiveCalls(c.Runner(), parent, assignee, fill, toHtml, listing, picked, order))
    ensures Shows(InteractiveResult(c.Runner(), parent, assignee, fill, toHtml, picked, order), r)
    ensures picked.Ok? ==> TrimSpace(picked.value) != ""
  {
    ghost var a0, e0, c0 := c.attempts, c.echoed, c.calls;
    var pid;
    ghost var trace;
    pid, trace, listing, picked := ResolveParent(c, parent, usePO, false, pick);
    match pid
    case Fail(e) =>
      r, order := Fail(e), [];
      InteractiveSteps(c.Runner(), parent, assignee, fill, toHtml, listing, picked, order);
    case Ok(p) =>
      ghost var a1, e1, c1 := c.attempts, c.echoed, c.calls;
      r, order := FileForm(c, p, assignee, fill, toHtml);
      c.Chain(a0, e0, c0, trace, a1, e1, c1, FormCalls(c.Runner(), p, assignee, fill, toHtml, order),
              c.attempts, c.echoed, c.calls);
      InteractiveSteps(c.Runner(), parent, assignee, fill, toHtml, listing, picked, order);
  }

  /** A confirmed form whose Task was created, decoded and linked: the
      state update follows exactly when the chosen state, trimmed, is
      neither blank nor "New", and the updated item is shown only when the
      update succeeds and decodes, the created one otherwise. */
  lemma StateFollowUp(run: seq<string> -> Result<Output>, pid: string, f: TaskForm, toHtml: string -> string,
                      order: seq<string>)
    requires f.proceed
    requires var out := run(CreateArgs("Task", f.title, FormFields(f, toHtml), order));
      out.Ok? && Unmarshal(out.value, DecodeWorkItem).Some?
      && run(LinkArgs(Unmarshal(out.value, DecodeWorkItem).value, pid)).Ok?
    ensures var create := CreateArgs("Task", f.title, FormFields(f, toHtml), order);
      var wi := Unmarshal(run(create).value, DecodeWorkItem).value;
      var update := State.SetState(IntToString(wi.id), f.state);
      && AnswerCalls(run, pid, Ok(f), toHtml, order)
           == [create, LinkArgs(wi, pid)] + (if SetsState(f.state) then [update] else [])
      && AnswerResult(run, pid, Ok(f), toHtml, order) == Ok(RenderOf("Task Created", FollowedUp(run, wi, f.state)))
      && (SetsState(f.state) && run(update).Ok? && Unmarshal(run(update).value, DecodeWorkItem).Some? ==>
            FollowedUp(run, wi, f.state) == Unmarshal(run(update).value, DecodeWorkItem).value)
      && (!SetsState(f.state) || run(update).Fail? || Unmarshal(run(update).value, DecodeWorkItem).None? ==>
            FollowedUp(run, wi, f.state) == wi)
  {
  }

  /** A form that fails or is not confirmed creates nothing: only the
      commands before the form run. */
  lemma UnconfirmedCreatesNothing(run: seq<string> -> Result<Output>, pid: string, assignee: string,
                                  fill: (string, TaskForm) -> Result<TaskForm>, toHtml: string -> string,
                                  order: seq<string>)
    requires var a := Answer(run, pid, assignee, fill); a.Fail? || !a.value.proceed
    ensures FormCalls(run, pid, assignee, fill, toHtml, order) == AskCalls(pid, assignee)
    ensures FormResult(run, pid, assignee, fill, toHtml, order).Fail?
  {
    assert AskCalls(pid, assignee) + [] == AskCalls(pid, assignee);
  }

  /** `create task [title]`: the form without a title argument, the flag
      path with one. */
  method TaskCmd(c: Client, args: seq<string>, parent: string, assignee: string, usePO: bool,
                 pick: seq<Choice> -> Result<string>, fill: (string, TaskForm) -> Result<TaskForm>,
                 toHtml: string -> string)
    returns (r: Result<Printed>, ghost listing: seq<seq<string>>, ghost picked: Result<string>,
             ghost order: seq<string>)
    requires |args| <= 1
    modifies c`attempts, c`echoed, c`calls
    ensures |args| == 0 ==>
      && c.Ran(old(c.attempts), old(c.echoed), old(c.calls),
               InteractiveCalls(c.Runner(), parent, assignee, fill, toHtml, listing, picked, order))
      && Shows(InteractiveResult(c.Runner(), parent, assignee, fill, toHtml, picked, order), r)
    ensures |args| == 1 ==>
      && c.Ran(old(c.attempts), old(c.echoed), old(c.calls),
               TaskCalls(c.Runner(), args[0], parent, assignee, listing, picked, order))
      && Shows(TaskResult(c.Runner(), args[0], parent, assignee, picked, order), r)
    ensures picked.Ok? ==> TrimSpace(picked.value) != ""
  {
    if |args| == 0 {
      r, listing, picked, order := CreateTaskInteractively(c, parent, assignee, usePO, pick, fill, toHtml);
    } else {
      r, listing, picked, order := CreateTask(c, args[0], parent, assignee, usePO, pick);
    }
  }
}
