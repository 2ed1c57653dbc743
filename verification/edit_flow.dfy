/** The `edit` command's run (cmd/edit.go:23-219): show the item, fill the
    form, then issue the planned updates one after another, stopping at the
    first error, and print what the last successful update returned. */
module EditFlow {
  import opened Errors
  import opened Strs
  import opened Json
  import opened Wi
  import opened Az
  import opened Render
  import opened Edit

  /** `argv` is the command that carries update `u` for item `id`; a fields
      update lists its `key=value` tokens in some order of its keys. */
  ghost predicate IsCall(id: string, u: Update, argv: seq<string>)
  {
    match u
    case SetFields(m) => exists order :: IsKeyOrder(order, m) && argv == UpdateArgs(id, m, order)
    case Assign(a) => argv == AssigneeArgs(id, a)
  }

  /** Issuing `plan` in order handed exactly `trace` to `runAz`: each update
      runs once; the first error ends the run and is its result; otherwise
      the result is the output of the last update, or `last` for an empty
      plan. */
  ghost predicate Issued(run: seq<string> -> Result<Output>, id: string, plan: seq<Update>, trace: seq<seq<string>>,
                         last: Option<Output>, r: Result<Option<Output>>)
    decreases |plan|
  {
    if plan == [] then trace == [] && r == Ok(last)
    else
      && |trace| >= 1 && IsCall(id, plan[0], trace[0])
      && var out := run(trace[0]);
      && (out.Fail? ==> trace == [trace[0]] && r == Fail(out.error))
      && (out.Ok? ==> Issued(run, id, plan[1..], trace[1..], Some(out.value), r))
  }

  /** Nothing runs after an error: the trace issues a prefix of the plan,
      every command but the last succeeded, a failing run ends with the
      failing command, and a successful run issued the whole plan and
      returns the last output. */
  lemma {:induction false} IssuedSpec(run: seq<string> -> Result<Output>, id: string, plan: seq<Update>, trace: seq<seq<string>>,
                                      last: Option<Output>, r: Result<Option<Output>>)
    requires Issued(run, id, plan, trace, last, r)
    ensures |trace| <= |plan|
    ensures forall i :: 0 <= i < |trace| ==> IsCall(id, plan[i], trace[i])
    ensures forall i :: 0 <= i < |trace| - 1 ==> run(trace[i]).Ok?
    ensures r.Fail? ==> |trace| >= 1 && run(trace[|trace| - 1]) == Fail(r.error)
    ensures r.Ok? ==> |trace| == |plan|
    ensures r.Ok? && |trace| > 0 ==> run(trace[|trace| - 1]).Ok? && r.value == Some(run(trace[|trace| - 1]).value)
    ensures r.Ok? && trace == [] ==> r.value == last
    decreases |plan|
  {
    if plan != [] {
      var out := run(trace[0]);
      if out.Ok? {
        IssuedSpec(run, id, plan[1..], trace[1..], Some(out.value), r);
        forall i | 0 <= i < |trace|
          ensures IsCall(id, plan[i], trace[i])
        {
          if i > 0 {
            assert trace[i] == trace[1..][i - 1] && plan[i] == plan[1..][i - 1];
          }
        }
        forall i | 0 <= i < |trace| - 1
          ensures run(trace[i]).Ok?
        {
          if i > 0 {
            assert trace[i] == trace[1..][i - 1];
          }
        }
        if |trace| > 1 {
          assert trace[|trace| - 1] == trace[1..][|trace[1..]| - 1];
        }
      }
    }
  }

  /** A run that succeeded continues with the next plan. */
  lemma {:induction false} IssuedThen(run: seq<string> -> Result<Output>, id: string, p: seq<Update>, t: seq<seq<string>>, q: seq<Update>, u: seq<seq<string>>,
                                      last: Option<Output>, mid: Option<Output>, r: Result<Option<Output>>)
    requires Issued(run, id, p, t, last, Ok(mid))
    requires Issued(run, id, q, u, mid, r)
    ensures Issued(run, id, p + q, t + u, last, r)
    decreases |p|
  {
    if p == [] {
      assert p + q == q && t + u == u;
    } else {
      var out := run(t[0]);
      assert out.Ok?;
      IssuedThen(run, id, p[1..], t[1..], q, u, Some(out.value), mid, r);
      assert (p + q)[0] == p[0] && (t + u)[0] == t[0];
      assert (p + q)[1..] == p[1..] + q;
      assert (t + u)[1..] == t[1..] + u;
    }
  }

  /** A run that failed stays failed whatever the plan goes on with. */
  lemma {:induction false} IssuedStop(run: seq<string> -> Result<Output>, id: string, p: seq<Update>, t: seq<seq<string>>, q: seq<Update>,
                                      last: Option<Output>, e: Error)
    requires Issued(run, id, p, t, last, Fail(e))
    ensures Issued(run, id, p + q, t, last, Fail(e))
    decreases |p|
  {
    var out := run(t[0]);
    if out.Ok? {
      IssuedStop(run, id, p[1..], t[1..], q, Some(out.value), e);
      assert (p + q)[1..] == p[1..] + q;
    }
  }

  /** Issues one update; a failure is returned, an output replaces `last`. */
  method Issue(c: Client, id: string, u: Update, last: Option<Output>)
    returns (r: Result<Option<Output>>, ghost trace: seq<seq<string>>)
    modifies c`attempts, c`echoed, c`calls
    ensures c.Ran(old(c.attempts), old(c.echoed), old(c.calls), trace)
    ensures Issued(c.Runner(), id, [u], trace, last, r)
  {
    var out;
    match u {
      case SetFields(m) =>
        ghost var order;
        out, order := c.UpdateWorkItemFields(id, m);
        trace := [UpdateArgs(id, m, order)];
        assert IsKeyOrder(order, m) && trace[0] == UpdateArgs(id, m, order);
      case Assign(a) =>
        out := c.UpdateWorkItemAssignee(id, a);
        trace := [AssigneeArgs(id, a)];
    }
    if out.Fail? {
      return Fail(out.error), trace;
    }
    r := Ok(Some(out.value));
    assert [u][1..] == [] && trace[1..] == [];
  }

  /** The update stage of `edit` (cmd/edit.go:179-208): the fields update,
      then a Bug's severity, then the assignee, each only when called for. */
  method Apply(c: Client, id: string, wi: WorkItem, fields: map<string, string>, f: Form)
    returns (r: Result<Option<Output>>, ghost trace: seq<seq<string>>)
    modifies c`attempts, c`echoed, c`calls
    ensures c.Ran(old(c.attempts), old(c.echoed), old(c.calls), trace)
    ensures Issued(c.Runner(), id, Plan(fields, wi, f), trace, None, r)
  {
    ghost var a0, e0, c0 := c.attempts, c.echoed, c.calls;
    ghost var done: seq<Update>;
    c.Idle(a0, e0, c0);
    r, trace, done := UpdateFields(c, id, fields, a0, e0, c0);
    if r.Fail? {
      Regroup(done, SeverityStage(wi, f), AssigneeStage(wi, f));
      Stopped(c.Runner(), id, fields, wi, f, done, trace, SeverityStage(wi, f) + AssigneeStage(wi, f), r.error);
      return;
    }
    r, trace, done := UpdateSeverity(c, id, wi, f, a0, e0, c0, done, trace, r.value);
    if r.Fail? {
      Stopped(c.Runner(), id, fields, wi, f, done, trace, AssigneeStage(wi, f), r.error);
      return;
    }
    r, trace, done := UpdateAssignee(c, id, wi, f, a0, e0, c0, done, trace, r.value);
    Planned(c.Runner(), id, fields, wi, f, done, trace, r);
  }

  /** The fields update, when there is anything in it. */
  method UpdateFields(c: Client, id: string, fields: map<string, string>,
                      ghost a0: seq<seq<string>>, ghost e0: seq<seq<string>>, ghost c0: seq<seq<string>>)
    returns (r: Result<Option<Output>>, ghost trace: seq<seq<string>>, ghost done: seq<Update>)
    requires c.Ran(a0, e0, c0, [])
    modifies c`attempts, c`echoed, c`calls
    ensures c.Ran(a0, e0, c0, trace)
    ensures done == FieldsStage(fields)
    ensures Issued(c.Runner(), id, done, trace, None, r)
  {
    r, trace, done := Ok(None), [], [];
    if |fields| > 0 {
      r, trace, done := Then(c, id, SetFields(fields), a0, e0, c0, done, trace, None);
    }
  }

  /** A Bug's severity, blank taken as "3 - Medium", when it differs
      (trimmed) from the current one. */
  method UpdateSeverity(c: Client, id: string, wi: WorkItem, f: Form,
                        ghost a0: seq<seq<string>>, ghost e0: seq<seq<string>>, ghost c0: seq<seq<string>>,
                        ghost done: seq<Update>, ghost trace: seq<seq<string>>, last: Option<Output>)
    returns (r: Result<Option<Output>>, ghost trace': seq<seq<string>>, ghost done': seq<Update>)
    requires c.Ran(a0, e0, c0, trace)
    requires Issued(c.Runner(), id, done, trace, None, Ok(last))
    modifies c`attempts, c`echoed, c`calls
    ensures c.Ran(a0, e0, c0, trace')
    ensures done' == done + SeverityStage(wi, f)
    ensures Issued(c.Runner(), id, done', trace', None, r)
  {
    r, trace', done' := Ok(last), trace, done;
    if TypeOf(wi) == "Bug" {
      var severity := f.severity;
      if TrimSpace(severity) == "" {
        severity := MediumSeverity;
      }
      var current := FieldString(wi.fields, SeverityKey);
      if TrimSpace(severity) != TrimSpace(current) {
        r, trace', done' := Then(c, id, SetFields(map[SeverityKey := severity]), a0, e0, c0, done, trace, last);
      }
    }
    assert done + [] == done;
  }

  /** The assignee, when it is non-blank and differs from the displayed
      one. */
  method UpdateAssignee(c: Client, id: string, wi: WorkItem, f: Form,
                        ghost a0: seq<seq<string>>, ghost e0: seq<seq<string>>, ghost c0: seq<seq<string>>,
                        ghost done: seq<Update>, ghost trace: seq<seq<string>>, last: Option<Output>)
    returns (r: Result<Option<Output>>, ghost trace': seq<seq<string>>, ghost done': seq<Update>)
    requires c.Ran(a0, e0, c0, trace)
    requires Issued(c.Runner(), id, done, trace, None, Ok(last))
    modifies c`attempts, c`echoed, c`calls
    ensures c.Ran(a0, e0, c0, trace')
    ensures done' == done + AssigneeStage(wi, f)
    ensures Issued(c.Runner(), id, done', trace', None, r)
  {
    r, trace', done' := Ok(last), trace, done;
    if f.assignee != AssigneeDisplay(wi.fields) && TrimSpace(f.assignee) != "" {
      r, trace', done' := Then(c, id, Assign(f.assignee), a0, e0, c0, done, trace, last);
    }
    assert done + [] == done;
  }

  /** Issues `u` after the updates `done`, which ran without error and left
      `last`. */
  method Then(c: Client, id: string, u: Update, ghost a0: seq<seq<string>>, ghost e0: seq<seq<string>>, ghost c0: seq<seq<string>>,
              ghost done: seq<Update>, ghost trace: seq<seq<string>>, last: Option<Output>)
    returns (r: Result<Option<Output>>, ghost trace': seq<seq<string>>, ghost done': seq<Update>)
    requires c.Ran(a0, e0, c0, trace)
    requires Issued(c.Runner(), id, done, trace, None, Ok(last))
    modifies c`attempts, c`echoed, c`calls
    ensures c.Ran(a0, e0, c0, trace')
    ensures done' == done + [u]
    ensures Issued(c.Runner(), id, done', trace', None, r)
  {
    ghost var a1, e1, c1 := c.attempts, c.echoed, c.calls;
    ghost var t;
    r, t := Issue(c, id, u, last);
    c.Chain(a0, e0, c0, trace, a1, e1, c1, t, c.attempts, c.echoed, c.calls);
    IssuedThen(c.Runner(), id, done, trace, [u], t, None, last, r);
    trace' := trace + t;
    done' := done + [u];
  }

  /** A failed stage ends the plan's run. */
  lemma Stopped(run: seq<string> -> Result<Output>, id: string, fields: map<string, string>, wi: WorkItem, f: Form,
                done: seq<Update>, trace: seq<seq<string>>, rest: seq<Update>, e: Error)
    requires done + rest == Plan(fields, wi, f)
    requires Issued(run, id, done, trace, None, Fail(e))
    ensures Issued(run, id, Plan(fields, wi, f), trace, None, Fail(e))
  {
    IssuedStop(run, id, done, trace, rest, None, e);
  }

  lemma Regroup(p: seq<Update>, q: seq<Update>, u: seq<Update>)
    ensures p + (q + u) == p + q + u
  {
  }

  /** The three stages make up the plan. */
  lemma Planned(run: seq<string> -> Result<Output>, id: string, fields: map<string, string>, wi: WorkItem, f: Form,
                done: seq<Update>, trace: seq<seq<string>>, r: Result<Option<Output>>)
    requires done == FieldsStage(fields) + SeverityStage(wi, f) + AssigneeStage(wi, f)
    requires Issued(run, id, done, trace, None, r)
    ensures Issued(run, id, Plan(fields, wi, f), trace, None, r)
  {
  }
  /** What is printed at the end: the item as it was, titled "No changes",
      when no update ran or the last one printed nothing; otherwise the last
      output, titled "Edited". */
  ghost predicate Finished(wi: WorkItem, last: Option<Output>, p: Printed)
  {
    if last.None? || last.value.text == "" then p.Rendered? && Renders("No changes", wi, p.md)
    else PrintedAs("Edited", last.value, p)
  }

  method Finish(wi: WorkItem, last: Option<Output>) returns (p: Printed)
    ensures Finished(wi, last, p)
  {
    if last.None? || |last.value.text| == 0 {
      var md := RenderWorkItem("No changes", Some(wi));
      return Rendered(md.value);
    }
    p := Display("Edited", last.value);
  }

  /** `name` and `value` are what `FindKanbanColumn` may return for
      `fields`. */
  predicate Located(fields: Fields, name: string, value: string)
  {
    && (HasKanbanField(fields) ==> KanbanField(fields, name, value))
    && (!HasKanbanField(fields) ==> name == "" && value == "")
  }

  /** After the item `wi` was shown: `cur` is its column, `key` its Kanban
      field (each looked up on its own, so with several Kanban fields they
      may come from different ones), and the form starts from the item's
      values. */
  ghost predicate Filled(run: seq<string> -> Result<Output>, id: string, wi: WorkItem, order: seq<string>,
                         toMarkdown: string -> string, toHtml: string -> string, fill: Form -> Result<Form>,
                         trace: seq<seq<string>>, cur: string, key: string,
                         applied: Result<Option<Output>>, r: Result<Printed>)
    requires |order| > 0
  {
    var start := Prefill(wi, cur, order, toMarkdown);
    && (exists n :: Located(wi.fields, n, cur))
    && (exists v :: Located(wi.fields, key, v))
    && Answered(run, id, wi, cur, key, start, fill(start), toHtml, trace, applied, r)
  }

  /** A form error is returned and a declined confirmation is "cancelled",
      neither issuing anything; otherwise the plan for the user's values is
      issued, its error returned and its last output printed. */
  ghost predicate Answered(run: seq<string> -> Result<Output>, id: string, wi: WorkItem, cur: string, key: string, start: Form,
                           answer: Result<Form>, toHtml: string -> string,
                           trace: seq<seq<string>>, applied: Result<Option<Output>>, r: Result<Printed>)
  {
    && (answer.Fail? ==> r == Fail(answer.error) && trace == [])
    && (answer.Ok? && !answer.value.proceed ==> r == Fail(FormCancelled) && trace == [])
    && (answer.Ok? && answer.value.proceed ==>
          var f := OnForm(TypeOf(wi), start, answer.value);
          Submitted(run, id, wi, Changes(wi, cur, key, f, start.description, start.criteria, toHtml), f,
                    trace, applied, r))
  }

  /** What `edit` does with the form's outcome. */
  method Respond(c: Client, id: string, wi: WorkItem, cur: string, key: string, start: Form,
                 answer: Result<Form>, toHtml: string -> string)
    returns (r: Result<Printed>, ghost trace: seq<seq<string>>, ghost applied: Result<Option<Output>>)
    modifies c`attempts, c`echoed, c`calls
    ensures c.Ran(old(c.attempts), old(c.echoed), old(c.calls), trace)
    ensures Answered(c.Runner(), id, wi, cur, key, start, answer, toHtml, trace, applied, r)
  {
    if answer.Fail? || !answer.value.proceed {
      c.Idle(c.attempts, c.echoed, c.calls);
      trace, applied := [], Ok(None);
      if answer.Fail? {
        return Fail(answer.error), trace, applied;
      }
      return Fail(FormCancelled), trace, applied;
    }
    var f := OnForm(TypeOf(wi), start, answer.value);
    var fields := Edit.Fill(Entries(wi, cur, key, f, start.description, start.criteria, toHtml));
    r, trace, applied := Submit(c, id, wi, fields, f);
  }

  /** The plan for the fields update `fields` and the form's final values
      `f` is issued, its error returned and its last output printed. */
  ghost predicate Submitted(run: seq<string> -> Result<Output>, id: string, wi: WorkItem, fields: map<string, string>, f: Form,
                            trace: seq<seq<string>>, applied: Result<Option<Output>>, r: Result<Printed>)
  {
    && Issued(run, id, Plan(fields, wi, f), trace, None, applied)
    && (applied.Fail? ==> r == Fail(applied.error))
    && (applied.Ok? ==> r.Ok? && Finished(wi, applied.value, r.value))
  }

  method Submit(c: Client, id: string, wi: WorkItem, fields: map<string, string>, f: Form)
    returns (r: Result<Printed>, ghost trace: seq<seq<string>>, ghost applied: Result<Option<Output>>)
    modifies c`attempts, c`echoed, c`calls
    ensures c.Ran(old(c.attempts), old(c.echoed), old(c.calls), trace)
    ensures Submitted(c.Runner(), id, wi, fields, f, trace, applied, r)
  {
    var outcome;
    outcome, trace := Apply(c, id, wi, fields, f);
    applied := outcome;
    if outcome.Fail? {
      return Fail(outcome.error), trace, applied;
    }
    var p := Finish(wi, outcome.value);
    r := Ok(p);
  }

  /** The form, the updates and the final print for the shown item. */
  method EditItem(c: Client, id: string, wi: WorkItem, order: seq<string>,
                  toMarkdown: string -> string, toHtml: string -> string, fill: Form -> Result<Form>)
    returns (r: Result<Printed>, ghost trace: seq<seq<string>>, ghost cur: string, ghost key: string,
             ghost applied: Result<Option<Output>>)
    requires |order| > 0
    modifies c`attempts, c`echoed, c`calls
    ensures c.Ran(old(c.attempts), old(c.echoed), old(c.calls), trace)
    ensures Filled(c.Runner(), id, wi, order, toMarkdown, toHtml, fill, trace, cur, key, applied, r)
  {
    var curField, curCol := FindKanbanColumn(wi.fields);
    cur := curCol;
    assert Located(wi.fields, curField, cur);
    var keyField, keyValue := FindKanbanColumn(wi.fields);
    key := keyField;
    assert Located(wi.fields, key, keyValue);
    var start := Prefill(wi, curCol, order, toMarkdown);
    var answer := fill(start);
    r, trace, applied := Respond(c, id, wi, curCol, keyField, start, answer, toHtml);
  }

  /** `edit <id>` after the show returned `shown`: a show error is
      returned and an undecodable item cannot be inspected, neither going
      further. */
  ghost predicate Edited(run: seq<string> -> Result<Output>, id: string, shown: Result<Shown>, order: seq<string>,
                         toMarkdown: string -> string, toHtml: string -> string, fill: Form -> Result<Form>,
                         trace: seq<seq<string>>, cur: string, key: string,
                         applied: Result<Option<Output>>, r: Result<Printed>)
    requires |order| > 0
  {
    match shown
    case Fail(e) => trace == [ShowArgs(id)] && r == Fail(e)
    case Ok(s) =>
      match s.item
      case None => trace == [ShowArgs(id)] && r == Fail(UnableToInspect(id))
      case Some(wi) =>
        && |trace| >= 1 && trace[0] == ShowArgs(id)
        && Filled(run, id, wi, order, toMarkdown, toHtml, fill, trace[1..], cur, key, applied, r)
  }

  method EditWorkItem(c: Client, id: string, order: seq<string>,
                      toMarkdown: string -> string, toHtml: string -> string, fill: Form -> Result<Form>)
    returns (r: Result<Printed>, ghost trace: seq<seq<string>>, ghost shown: Result<Shown>,
             ghost cur: string, ghost key: string, ghost applied: Result<Option<Output>>)
    requires |order| > 0
    modifies c`attempts, c`echoed, c`calls
    ensures c.Ran(old(c.attempts), old(c.echoed), old(c.calls), trace)
    ensures shown == ShownOf(c.Outcome(ShowArgs(id)))
    ensures Edited(c.Runner(), id, shown, order, toMarkdown, toHtml, fill, trace, cur, key, applied, r)
  {
    ghost var a0, e0, c0 := c.attempts, c.echoed, c.calls;
    var s := c.ShowWorkItem(id);
    shown := s;
    match s
    case Fail(e) =>
      r, trace, cur, key, applied := Fail(e), [ShowArgs(id)], "", "", Ok(None);
    case Ok(sh) =>
      match sh.item
      case None =>
        r, trace, cur, key, applied := Fail(UnableToInspect(id)), [ShowArgs(id)], "", "", Ok(None);
      case Some(wi) =>
        ghost var a1, e1, c1 := c.attempts, c.echoed, c.calls;
        ghost var rest;
        r, rest, cur, key, applied := EditItem(c, id, wi, order, toMarkdown, toHtml, fill);
        c.Chain(a0, e0, c0, [ShowArgs(id)], a1, e1, c1, rest, c.attempts, c.echoed, c.calls);
        trace := [ShowArgs(id)] + rest;
        assert trace[1..] == rest;
  }

  /** `edit [id]`: the item is the positional argument, else the picker's
      choice; a picker error is returned and nothing is called. */
  method EditCmd(c: Client, args: seq<string>, picked: Result<string>, order: seq<string>,
                 toMarkdown: string -> string, toHtml: string -> string, fill: Form -> Result<Form>)
    returns (r: Result<Printed>, ghost trace: seq<seq<string>>, ghost shown: Result<Shown>,
             ghost cur: string, ghost key: string, ghost applied: Result<Option<Output>>)
    requires |args| <= 1 && |order| > 0
    modifies c`attempts, c`echoed, c`calls
    ensures c.Ran(old(c.attempts), old(c.echoed), old(c.calls), trace)
    ensures |args| == 0 && picked.Fail? ==> r == Fail(picked.error) && trace == []
    ensures |args| == 1 || picked.Ok? ==>
      var id := if |args| == 1 then args[0] else picked.value;
      && shown == ShownOf(c.Outcome(ShowArgs(id)))
      && Edited(c.Runner(), id, shown, order, toMarkdown, toHtml, fill, trace, cur, key, applied, r)
  {
    var id: string;
    if |args| == 1 {
      id := args[0];
    } else {
      if picked.Fail? {
        c.Idle(c.attempts, c.echoed, c.calls);
        return Fail(picked.error), [], Fail(picked.error), "", "", Ok(None);
      }
      id := picked.value;
    }
    r, trace, shown, cur, key, applied := EditWorkItem(c, id, order, toMarkdown, toHtml, fill);
  }
}
