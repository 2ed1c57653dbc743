/** The state commands (cmd/state.go): `resolve`, `renew`, `close` and
    `delete` take one id or the picker's selection and handle the ids in
    order, one step each, stopping at the first error. */
module State {
  import opened Errors
  import opened Json
  import opened Wi
  import opened Az
  import opened Render

  datatype Verb = Resolve | Renew | Close | Delete

  /** The ids to handle: the single positional argument, else what the
      picker returned, its error included. */
  function Targets(args: seq<string>, picked: Result<seq<string>>): (r: Result<seq<string>>)
    requires |args| <= 1
    ensures |args| == 1 ==> r == Ok([args[0]])
    ensures |args| == 0 ==> r == picked
  {
    if |args| == 1 then Ok([args[0]]) else picked
  }

  /** The state `resolve` sets: a Task is closed, anything else resolved. */
  function ResolveTarget(fields: Fields): (s: string)
    ensures FieldString(fields, "System.WorkItemType") == "Task" ==> s == "Closed"
    ensures FieldString(fields, "System.WorkItemType") != "Task" ==> s == "Resolved"
  {
    if FieldString(fields, "System.WorkItemType") == "Task" then "Closed" else "Resolved"
  }

  /** The heading each command renders its result under. */
  function Heading(v: Verb): string
  {
    match v
    case Resolve => "Resolved"
    case Renew => "Renewed"
    case Close => "Closed"
    case Delete => ""
  }

  /** The one-field update setting the state. */
  function SetState(id: string, state: string): seq<string>
  {
    UpdateArgs(id, map["System.State" := state], ["System.State"])
  }

  /** The item `resolve` shows before deciding its target. */
  function Inspection(run: seq<string> -> Result<Output>, id: string): Result<Shown>
  {
    ShownOf(run(ShowArgs(id)))
  }

  /** The commands one id's step hands to `runAz`, in order. */
  function StepCalls(run: seq<string> -> Result<Output>, v: Verb, id: string): seq<seq<string>>
  {
    match v
    case Resolve =>
      var sh := Inspection(run, id);
      if sh.Fail? || sh.value.item.None? then [ShowArgs(id)]
      else [ShowArgs(id), SetState(id, ResolveTarget(sh.value.item.value.fields))]
    case Renew => [SetState(id, "New")]
    case Close => [SetState(id, "Closed")]
    case Delete => [DeleteArgs(id)]
  }

  /** The last command of a step: the update, or the delete. */
  function Final(run: seq<string> -> Result<Output>, v: Verb, id: string): seq<string>
  {
    var calls := StepCalls(run, v, id);
    calls[|calls| - 1]
  }

  /** The error one id's step ends with, if any: a failed show, an item
      that does not decode, or a failed update or delete. */
  function StepError(run: seq<string> -> Result<Output>, v: Verb, id: string): Option<Error>
  {
    var sh := Inspection(run, id);
    if v == Resolve && sh.Fail? then Some(sh.error)
    else if v == Resolve && sh.value.item.None? then Some(UnableToInspect(id))
    else if run(Final(run, v, id)).Fail? then Some(run(Final(run, v, id)).error)
    else None
  }

  /** How a successful step prints the output `out` of its last command:
      `delete` prints it as JSON, the others render it when it decodes. */
  ghost predicate Shows(v: Verb, out: Output, p: Printed)
  {
    if v == Delete then p == RawJson(out) else PrintedAs(Heading(v), out, p)
  }

  /** `resolve` asks for the item first and updates nothing when it cannot
      be shown or decoded; otherwise it sets the state by the type. */
  lemma ResolveStep(run: seq<string> -> Result<Output>, id: string)
    ensures var sh := Inspection(run, id);
      && StepCalls(run, Resolve, id)[0] == ShowArgs(id)
      && (sh.Fail? ==> StepCalls(run, Resolve, id) == [ShowArgs(id)] && StepError(run, Resolve, id) == Some(sh.error))
      && (sh.Ok? && sh.value.item.None? ==>
            StepCalls(run, Resolve, id) == [ShowArgs(id)] && StepError(run, Resolve, id) == Some(UnableToInspect(id)))
      && (sh.Ok? && sh.value.item.Some? ==>
            var state := if FieldString(sh.value.item.value.fields, "System.WorkItemType") == "Task" then "Closed" else "Resolved";
            StepCalls(run, Resolve, id) == [ShowArgs(id), SetState(id, state)])
  {
  }

  /** `renew` and `close` make exactly one call, setting only the state. */
  lemma FixedStateSteps(run: seq<string> -> Result<Output>, id: string)
    ensures StepCalls(run, Renew, id) ==
      [["boards", "work-item", "update", "--id", id, "--fields", "System.State" + "=" + "New", "-o", "json"]]
    ensures StepCalls(run, Close, id) ==
      [["boards", "work-item", "update", "--id", id, "--fields", "System.State" + "=" + "Closed", "-o", "json"]]
  {
    SingleFieldUpdate(id, "System.State", "New");
    SingleFieldUpdate(id, "System.State", "Closed");
  }

  /** A step that ended without error and printed `p`. */
  ghost predicate Done(run: seq<string> -> Result<Output>, v: Verb, id: string, p: Printed)
  {
    StepError(run, v, id).None? && Shows(v, run(Final(run, v, id)).value, p)
  }

  /** One id's step. */
  method Step(c: Client, v: Verb, id: string) returns (err: Option<Error>, p: Printed)
    modifies c`attempts, c`echoed, c`calls
    ensures c.Ran(old(c.attempts), old(c.echoed), old(c.calls), StepCalls(c.Runner(), v, id))
    ensures err == StepError(c.Runner(), v, id)
    ensures err.None? ==> Done(c.Runner(), v, id, p)
  {
    match v
    case Resolve => err, p := ResolveOne(c, id);
    case Renew => err, p := SetOne(c, v, id, "New");
    case Close => err, p := SetOne(c, v, id, "Closed");
    case Delete => err, p := DeleteOne(c, id);
  }

  method DeleteOne(c: Client, id: string) returns (err: Option<Error>, p: Printed)
    modifies c`attempts, c`echoed, c`calls
    ensures c.Ran(old(c.attempts), old(c.echoed), old(c.calls), StepCalls(c.Runner(), Delete, id))
    ensures err == StepError(c.Runner(), Delete, id)
    ensures err.None? ==> Done(c.Runner(), Delete, id, p)
  {
    var raw := c.DeleteWorkItem(id);
    if raw.Fail? {
      return Some(raw.error), RawJson(Output("", None));
    }
    return None, RawJson(raw.value);
  }

  method SetOne(c: Client, v: Verb, id: string, state: string) returns (err: Option<Error>, p: Printed)
    requires v == Renew || v == Close
    requires state == if v == Renew then "New" else "Closed"
    modifies c`attempts, c`echoed, c`calls
    ensures c.Ran(old(c.attempts), old(c.echoed), old(c.calls), StepCalls(c.Runner(), v, id))
    ensures err == StepError(c.Runner(), v, id)
    ensures err.None? ==> Done(c.Runner(), v, id, p)
  {
    err, p := SetAndShow(c, id, state, Heading(v));
  }

  method ResolveOne(c: Client, id: string) returns (err: Option<Error>, p: Printed)
    modifies c`attempts, c`echoed, c`calls
    ensures c.Ran(old(c.attempts), old(c.echoed), old(c.calls), StepCalls(c.Runner(), Resolve, id))
    ensures err == StepError(c.Runner(), Resolve, id)
    ensures err.None? ==> Done(c.Runner(), Resolve, id, p)
  {
    p := RawJson(Output("", None));
    ghost var a0, e0, c0 := c.attempts, c.echoed, c.calls;
    var shown := c.ShowWorkItem(id);
    ResolveStep(c.Runner(), id);
    match shown
    case Fail(e) =>
      err := Some(e);
    case Ok(sh) =>
      match sh.item
      case None =>
        err := Some(UnableToInspect(id));
      case Some(wi) =>
        var state := ResolveTarget(wi.fields);
        ghost var a1, e1, c1 := c.attempts, c.echoed, c.calls;
        err, p := SetAndShow(c, id, state, Heading(Resolve));
        c.Chain(a0, e0, c0, [ShowArgs(id)], a1, e1, c1, [SetState(id, state)], c.attempts, c.echoed, c.calls);
  }

  /** Sets the state and renders the updated item under `heading`. */
  method SetAndShow(c: Client, id: string, state: string, heading: string) returns (err: Option<Error>, p: Printed)
    modifies c`attempts, c`echoed, c`calls
    ensures c.Ran(old(c.attempts), old(c.echoed), old(c.calls), [SetState(id, state)])
    ensures var out := c.Outcome(SetState(id, state));
      && (out.Fail? ==> err == Some(out.error))
      && (out.Ok? ==> err == None && PrintedAs(heading, out.value, p))
  {
    var raw := Update(c, id, state);
    p := RawJson(Output("", None));
    if raw.Fail? {
      return Some(raw.error), p;
    }
    p := Display(heading, raw.value);
    return None, p;
  }

  method Update(c: Client, id: string, state: string) returns (r: Result<Output>)
    modifies c`attempts, c`echoed, c`calls
    ensures c.Ran(old(c.attempts), old(c.echoed), old(c.calls), [SetState(id, state)])
    ensures r == c.Outcome(SetState(id, state))
  {
    ghost var order;
    r, order := c.UpdateWorkItemFields(id, map["System.State" := state]);
    KeyOrderSingleton("System.State", state, order);
  }

  /** The number of ids handled without error before the first failing
      one, or all of them. */
  function Halt(run: seq<string> -> Result<Output>, v: Verb, ids: seq<string>): (n: nat)
    ensures n <= |ids|
    ensures forall i :: 0 <= i < n ==> StepError(run, v, ids[i]).None?
    ensures n < |ids| ==> StepError(run, v, ids[n]).Some?
  {
    if |ids| == 0 then 0
    else if StepError(run, v, ids[0]).Some? then 0
    else 1 + Halt(run, v, ids[1..])
  }

  /** The commands of the steps for `ids`, one step after another. */
  function Calls(run: seq<string> -> Result<Output>, v: Verb, ids: seq<string>): seq<seq<string>>
  {
    if |ids| == 0 then [] else Calls(run, v, ids[..|ids| - 1]) + StepCalls(run, v, ids[|ids| - 1])
  }

  /** The commands' promise for `ids`: the steps run in order up to and
      including the first that fails, so later ids get no call; that
      step's error is returned, and every earlier step printed its
      result. */
  ghost predicate Processed(run: seq<string> -> Result<Output>, v: Verb, ids: seq<string>, trace: seq<seq<string>>,
                            err: Option<Error>, printed: seq<Printed>)
  {
    var n := Halt(run, v, ids);
    && trace == Calls(run, v, ids[..if n < |ids| then n + 1 else n])
    && err == (if n < |ids| then StepError(run, v, ids[n]) else None)
    && |printed| == n
    && forall i :: 0 <= i < n ==> Done(run, v, ids[i], printed[i])
  }

  /** The per-id loop. */
  method Each(c: Client, v: Verb, ids: seq<string>)
    returns (err: Option<Error>, printed: seq<Printed>, ghost trace: seq<seq<string>>)
    modifies c`attempts, c`echoed, c`calls
    ensures c.Ran(old(c.attempts), old(c.echoed), old(c.calls), trace)
    ensures Processed(c.Runner(), v, ids, trace, err, printed)
  {
    ghost var a0, e0, c0 := c.attempts, c.echoed, c.calls;
    printed, trace := [], [];
    c.Idle(a0, e0, c0);
    var i := 0;
    while i < |ids|
      invariant 0 <= i <= |ids|
      invariant trace == Calls(c.Runner(), v, ids[..i])
      invariant c.Ran(a0, e0, c0, trace)
      invariant AllDone(c.Runner(), v, ids[..i], printed)
    {
      var e, p;
      e, p, trace := StepAt(c, v, ids, i, a0, e0, c0, trace);
      if e.Some? {
        HaltAt(c.Runner(), v, ids, printed, i);
        Conclude(c.Runner(), v, ids, trace, e, printed, i);
        return e, printed, trace;
      }
      DoneExtend(c.Runner(), v, ids, printed, p, i);
      printed := printed + [p];
      i := i + 1;
    }
    HaltAt(c.Runner(), v, ids, printed, i);
    Conclude(c.Runner(), v, ids, trace, None, printed, i);
    err := None;
  }

  lemma Conclude(run: seq<string> -> Result<Output>, v: Verb, ids: seq<string>, trace: seq<seq<string>>,
                 err: Option<Error>, printed: seq<Printed>, n: int)
    requires n == Halt(run, v, ids)
    requires trace == Calls(run, v, ids[..if n < |ids| then n + 1 else n])
    requires err == (if n < |ids| then StepError(run, v, ids[n]) else None)
    requires 0 <= n <= |ids| && AllDone(run, v, ids[..n], printed)
    ensures Processed(run, v, ids, trace, err, printed)
  {
  }

  /** The loop body: the step for `ids[i]`, its calls appended to the
      trace so far. */
  method StepAt(c: Client, v: Verb, ids: seq<string>, i: int,
                ghost a0: seq<seq<string>>, ghost e0: seq<seq<string>>, ghost c0: seq<seq<string>>,
                ghost trace: seq<seq<string>>)
    returns (err: Option<Error>, p: Printed, ghost trace': seq<seq<string>>)
    requires 0 <= i < |ids|
    requires c.Ran(a0, e0, c0, trace) && trace == Calls(c.Runner(), v, ids[..i])
    modifies c`attempts, c`echoed, c`calls
    ensures c.Ran(a0, e0, c0, trace') && trace' == Calls(c.Runner(), v, ids[..i + 1])
    ensures err == StepError(c.Runner(), v, ids[i])
    ensures err.None? ==> Done(c.Runner(), v, ids[i], p)
  {
    ghost var a1, e1, c1 := c.attempts, c.echoed, c.calls;
    err, p := Step(c, v, ids[i]);
    c.Chain(a0, e0, c0, trace, a1, e1, c1, StepCalls(c.Runner(), v, ids[i]), c.attempts, c.echoed, c.calls);
    CallsStep(c.Runner(), v, ids, i);
    trace' := trace + StepCalls(c.Runner(), v, ids[i]);
  }

  /** Every id so far was handled and printed. */
  ghost predicate AllDone(run: seq<string> -> Result<Output>, v: Verb, ids: seq<string>, printed: seq<Printed>)
  {
    |printed| == |ids| && forall j :: 0 <= j < |ids| ==> Done(run, v, ids[j], printed[j])
  }

  lemma DoneExtend(run: seq<string> -> Result<Output>, v: Verb, ids: seq<string>, printed: seq<Printed>, p: Printed, i: int)
    requires 0 <= i < |ids|
    requires AllDone(run, v, ids[..i], printed)
    requires Done(run, v, ids[i], p)
    ensures AllDone(run, v, ids[..i + 1], printed + [p])
  {
    TakeOneMore(ids, i);
    DoneSnoc(run, v, ids[..i], printed, ids[i], p);
  }

  lemma TakeOneMore(ids: seq<string>, i: int)
    requires 0 <= i < |ids|
    ensures ids[..i + 1] == ids[..i] + [ids[i]]
  {
  }

  lemma DoneSnoc(run: seq<string> -> Result<Output>, v: Verb, done: seq<string>, printed: seq<Printed>,
                 id: string, p: Printed)
    requires AllDone(run, v, done, printed) && Done(run, v, id, p)
    ensures AllDone(run, v, done + [id], printed + [p])
  {
    forall j | 0 <= j < |done| + 1
      ensures Done(run, v, (done + [id])[j], (printed + [p])[j])
    {
      if j < |done| {
        assert (done + [id])[j] == done[j] && (printed + [p])[j] == printed[j];
      }
    }
  }

  lemma CallsStep(run: seq<string> -> Result<Output>, v: Verb, ids: seq<string>, i: int)
    requires 0 <= i < |ids|
    ensures Calls(run, v, ids[..i + 1]) == Calls(run, v, ids[..i]) + StepCalls(run, v, ids[i])
  {
    assert ids[..i + 1][..i] == ids[..i];
  }

  /** The first failing step, or the end, is where the loop halts. */
  lemma HaltAt(run: seq<string> -> Result<Output>, v: Verb, ids: seq<string>, printed: seq<Printed>, i: int)
    requires 0 <= i <= |ids|
    requires AllDone(run, v, ids[..i], printed)
    requires i < |ids| ==> StepError(run, v, ids[i]).Some?
    ensures Halt(run, v, ids) == i
  {
    assert forall j :: 0 <= j < i ==> ids[..i][j] == ids[j];
    HaltFrom(run, v, ids, i);
  }

  lemma {:induction false} HaltFrom(run: seq<string> -> Result<Output>, v: Verb, ids: seq<string>, i: int)
    requires 0 <= i <= |ids|
    requires forall j :: 0 <= j < i ==> StepError(run, v, ids[j]).None?
    requires i < |ids| ==> StepError(run, v, ids[i]).Some?
    ensures Halt(run, v, ids) == i
    decreases i
  {
    if i > 0 {
      assert forall j :: 0 <= j < i - 1 ==> ids[1..][j] == ids[j + 1];
      HaltFrom(run, v, ids[1..], i - 1);
    }
  }

  /** `resolve`, `renew`, `close` or `delete` run on their arguments: a
      picker error is returned and nothing is called. */
  method StateCmd(c: Client, v: Verb, args: seq<string>, picked: Result<seq<string>>)
    returns (err: Option<Error>, printed: seq<Printed>, ghost trace: seq<seq<string>>)
    requires |args| <= 1
    modifies c`attempts, c`echoed, c`calls
    ensures c.Ran(old(c.attempts), old(c.echoed), old(c.calls), trace)
    ensures Targets(args, picked).Fail? ==> err == Some(Targets(args, picked).error) && trace == [] && printed == []
    ensures Targets(args, picked).Ok? ==> Processed(c.Runner(), v, Targets(args, picked).value, trace, err, printed)
  {
    var ids: seq<string>;
    if |args| == 1 {
      ids := [args[0]];
    } else {
      if picked.Fail? {
        c.Idle(c.attempts, c.echoed, c.calls);
        return Some(picked.error), [], [];
      }
      ids := picked.value;
    }
    err, printed, trace := Each(c, v, ids);
  }

  /** With one id, exactly that id's step runs. */
  lemma SingleId(run: seq<string> -> Result<Output>, v: Verb, id: string, trace: seq<seq<string>>, err: Option<Error>, printed: seq<Printed>)
    requires Processed(run, v, [id], trace, err, printed)
    ensures trace == StepCalls(run, v, id)
    ensures err == StepError(run, v, id)
    ensures |printed| == (if err.None? then 1 else 0)
  {
    assert [id][..1] == [id];
    assert [id][..0] == [];
    assert Calls(run, v, [id]) == Calls(run, v, []) + StepCalls(run, v, id);
  }
}
