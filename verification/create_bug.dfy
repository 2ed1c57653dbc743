/** `ab create bug` (cmd/create_bug.go): a Bug created under a User Story,
    with a severity, from flags or from an interactive form. */
module CreateBug {
  import opened Errors
  import opened Strs
  import opened Json
  import opened Wi
  import opened Az
  import opened Render
  import opened Picker
  import opened Create

  // ---------------------------------------------------------------------
  // Severity

  /** The severity labels Azure Boards expects, in the form's order. */
  const Severities: seq<string> := ["1 - Critical", "2 - High", "3 - Medium", "4 - Low"]

  /** `resolveSeverityLabel`: the trimmed value "" gives no label, a
      single digit "1" to "4" the label starting with that digit; anything
      else is refused, naming the value as given. */
  function SeverityLabel(v: string): (r: Result<string>)
    ensures r.Ok? && r.value != "" ==> r.value in Severities
    ensures r.Fail? ==> r.error == InvalidSeverity(v)
  {
    var vv := TrimSpace(v);
    if vv == "" then Ok("")
    else if |vv| == 1 && '1' <= vv[0] <= '4' then Ok(Severities[vv[0] as int - '1' as int])
    else Fail(InvalidSeverity(v))
  }

  /** Exactly the blank value and the four digits are accepted, blank
      giving no label. */
  lemma SeverityLabelSpec(v: string)
    ensures SeverityLabel(v) == Ok("") <==> TrimSpace(v) == ""
    ensures SeverityLabel(v).Fail? <==> TrimSpace(v) !in ["", "1", "2", "3", "4"]
  {
    var vv := TrimSpace(v);
    var accepted := ["", "1", "2", "3", "4"];
    if vv == "" {
      assert vv == accepted[0];
    } else if |vv| == 1 && '1' <= vv[0] <= '4' {
      var k := vv[0] as int - '0' as int;
      assert vv == [vv[0]] == accepted[k];
      assert Severities[k - 1] != "";
    } else {
      forall i | 0 <= i < |accepted|
        ensures vv != accepted[i]
      {
        if i > 0 {
          assert |accepted[i]| == 1 && '1' <= accepted[i][0] <= '4';
        }
      }
    }
  }

  /** A digit is its own trimmed form. */
  lemma DigitTrimmed(d: char)
    requires '0' <= d <= '9'
    ensures TrimSpace([d]) == [d]
  {
    assert !IsSpace(d);
    assert TrimLeft([d]) == [d];
  }

  /** Each label is what its leading digit resolves to, so the flag names
      every severity the form offers. */
  lemma SeverityRoundTrip()
    ensures forall i :: 0 <= i < |Severities| ==>
      |Severities[i]| > 0 && SeverityLabel(Severities[i][..1]) == Ok(Severities[i])
  {
    forall i | 0 <= i < |Severities|
      ensures |Severities[i]| > 0 && SeverityLabel(Severities[i][..1]) == Ok(Severities[i])
    {
      LabelDigit(i);
    }
  }

  lemma LabelDigit(i: nat)
    requires i < 4
    ensures |Severities[i]| > 0 && SeverityLabel(Severities[i][..1]) == Ok(Severities[i])
  {
    var d := Severities[i][0];
    assert Severities[i][..1] == [d];
    assert d as int - '1' as int == i;
    DigitTrimmed(d);
  }

  /** The severity the flag path sets: the flag's label, Medium when no
      label was given, or the flag's error. */
  function SeverityField(v: string): (r: Result<string>)
    ensures r.Fail? <==> SeverityLabel(v).Fail?
    ensures r.Fail? ==> r.error == InvalidSeverity(v)
    ensures r.Ok? ==> r.value in Severities
    ensures TrimSpace(v) == "" ==> r == Ok(MediumSeverity)
  {
    match SeverityLabel(v)
    case Fail(e) => Fail(e)
    case Ok(lbl) => if lbl != "" then Ok(lbl) else Ok(MediumSeverity)
  }

  /** The form's starting severity: as the flag path would set it, and
      Medium where the flag path would fail. */
  function SeverityPrefill(v: string): (s: string)
    ensures s in Severities
    ensures SeverityField(v).Ok? ==> s == SeverityField(v).value
    ensures SeverityField(v).Fail? ==> s == MediumSeverity
  {
    match SeverityLabel(v)
    case Ok(lbl) => if lbl != "" then lbl else MediumSeverity
    case Fail(_) => MediumSeverity
  }

  // ---------------------------------------------------------------------
  // The flag path

  /** The fields a Bug is created with from flags: New, the severity, and
      the assignee when there is one. */
  function BugFields(who: Option<string>, severity: string): (f: map<string, string>)
  {
    WithAssignee(map[StateKey := "New"], who)[SeverityKey := severity]
  }

  lemma BugFieldsSpec(who: Option<string>, severity: string)
    ensures var f := BugFields(who, severity);
      && f.Keys == {StateKey, SeverityKey} + (if who.Some? then {AssigneeKey} else {})
      && f[StateKey] == "New" && f[SeverityKey] == severity
      && (who.Some? ==> f[AssigneeKey] == who.value)
  {
    KeysDistinct();
  }

  /** The commands once the parent is known: the assignee lookup, then,
      unless it or the severity fails, the create call and what follows
      it. */
  function FiledCalls(run: seq<string> -> Result<Output>, title: string, assignee: string, severity: string,
                      pid: string, order: seq<string>): seq<seq<string>>
  {
    AssigneeCalls(assignee) +
      match Assignee(run, assignee)
      case Fail(_) => []
      case Ok(who) =>
        match SeverityField(severity)
        case Fail(_) => []
        case Ok(sev) => LinkCalls(run, "Bug", title, BugFields(who, sev), order, pid, "")
  }

  /** The assignee's error, the severity's error, or what the create call
      and the link lead to. */
  function FiledResult(run: seq<string> -> Result<Output>, title: string, assignee: string, severity: string,
                       pid: string, order: seq<string>): Result<Print>
  {
    match Assignee(run, assignee)
    case Fail(e) => Fail(e)
    case Ok(who) =>
      match SeverityField(severity)
      case Fail(e) => Fail(e)
      case Ok(sev) => LinkResult(run, "Bug", title, BugFields(who, sev), order, "bug", "Bug Created", pid, "")
  }

  /** The fields the flag path creates the Bug with, when it gets that
      far. */
  ghost predicate FiledOrder(run: seq<string> -> Result<Output>, assignee: string, severity: string, order: seq<string>)
  {
    Assignee(run, assignee).Ok? && SeverityField(severity).Ok? ==>
      IsKeyOrder(order, BugFields(Assignee(run, assignee).value, SeverityField(severity).value))
  }

  /** `FiledCalls` and `FiledResult` case by case. */
  lemma FiledSteps(run: seq<string> -> Result<Output>, title: string, assignee: string, severity: string,
                   pid: string, order: seq<string>)
    ensures var who := Assignee(run, assignee);
      var calls := FiledCalls(run, title, assignee, severity, pid, order);
      var res := FiledResult(run, title, assignee, severity, pid, order);
      && (who.Fail? ==> calls == AssigneeCalls(assignee) && res == Fail(who.error))
      && (who.Ok? && SeverityField(severity).Fail? ==>
            calls == AssigneeCalls(assignee) && res == Fail(SeverityField(severity).error))
      && (who.Ok? && SeverityField(severity).Ok? ==>
            var f := BugFields(who.value, SeverityField(severity).value);
            && calls == AssigneeCalls(assignee) + LinkCalls(run, "Bug", title, f, order, pid, "")
            && res == LinkResult(run, "Bug", title, f, order, "bug", "Bug Created", pid, ""))
  {
    assert AssigneeCalls(assignee) + [] == AssigneeCalls(assignee);
  }

  method File(c: Client, title: string, assignee: string, severity: string, pid: string)
    returns (r: Result<Printed>, ghost order: seq<string>)
    modifies c`attempts, c`echoed, c`calls
    ensures FiledOrder(c.Runner(), assignee, severity, order)
    ensures c.Ran(old(c.attempts), old(c.echoed), old(c.calls), FiledCalls(c.Runner(), title, assignee, severity, pid, order))
    ensures Shows(FiledResult(c.Runner(), title, assignee, severity, pid, order), r)
  {
    ghost var a0, e0, c0 := c.attempts, c.echoed, c.calls;
    var who := ResolveAssignee(c, assignee);
    var sev := SeverityField(severity);
    match who
    case Fail(e) =>
      r, order := Fail(e), [];
      FiledSteps(c.Runner(), title, assignee, severity, pid, order);
    case Ok(w) =>
      match sev
      case Fail(e) =>
        r, order := Fail(e), [];
        FiledSteps(c.Runner(), title, assignee, severity, pid, order);
      case Ok(s) =>
        ghost var a1, e1, c1 := c.attempts, c.echoed, c.calls;
        r, order := Link(c, "Bug", title, BugFields(w, s), "bug", "Bug Created", pid, "");
        c.Chain(a0, e0, c0, AssigneeCalls(assignee), a1, e1, c1,
                LinkCalls(c.Runner(), "Bug", title, BugFields(w, s), order, pid, ""), c.attempts, c.echoed, c.calls);
        FiledSteps(c.Runner(), title, assignee, severity, pid, order);
  }

  /** The flag path's commands: the parent's (`listing` and `picked` are
      the parent picker's commands and outcome), then, once the parent is
      known, as `FiledCalls` says. A parent given by flag is checked. */
  function BugCalls(run: seq<string> -> Result<Output>, title: string, parent: string, assignee: string,
                    severity: string, listing: seq<seq<string>>, picked: Result<string>, order: seq<string>)
    : seq<seq<string>>
  {
    var check := TrimSpace(parent) != "";
    ParentCalls(parent, listing, picked, check) +
      match Parent(run, parent, picked, check)
      case Fail(_) => []
      case Ok(pid) => FiledCalls(run, title, assignee, severity, pid, order)
  }

  function BugResult(run: seq<string> -> Result<Output>, title: string, parent: string, assignee: string,
                     severity: string, picked: Result<string>, order: seq<string>): Result<Print>
  {
    match Parent(run, parent, picked, TrimSpace(parent) != "")
    case Fail(e) => Fail(e)
    case Ok(pid) => FiledResult(run, title, assignee, severity, pid, order)
  }

  /** `BugCalls` and `BugResult` case by case. */
  lemma BugSteps(run: seq<string> -> Result<Output>, title: string, parent: string, assignee: string,
                 severity: string, listing: seq<seq<string>>, picked: Result<string>, order: seq<string>)
    ensures var check := TrimSpace(parent) != "";
      var p := Parent(run, parent, picked, check);
      var calls := BugCalls(run, title, parent, assignee, severity, listing, picked, order);
      var res := BugResult(run, title, parent, assignee, severity, picked, order);
      && (p.Fail? ==> calls == ParentCalls(parent, listing, picked, check) && res == Fail(p.error))
      && (p.Ok? ==>
            && calls == ParentCalls(parent, listing, picked, check) + FiledCalls(run, title, assignee, severity, p.value, order)
            && res == FiledResult(run, title, assignee, severity, p.value, order))
  {
    var check := TrimSpace(parent) != "";
    assert ParentCalls(parent, listing, picked, check) + [] == ParentCalls(parent, listing, picked, check);
  }

  /** `create bug "<title>"`. */
  method CreateBug(c: Client, title: string, parent: string, assignee: string, severity: string, usePO: bool,
                   pick: seq<Choice> -> Result<string>)
    returns (r: Result<Printed>, ghost listing: seq<seq<string>>, ghost picked: Result<string>,
             ghost order: seq<string>)
    modifies c`attempts, c`echoed, c`calls
    ensures c.Ran(old(c.attempts), old(c.echoed), old(c.calls),
                  BugCalls(c.Runner(), title, parent, assignee, severity, listing, picked, order))
    ensures Shows(BugResult(c.Runner(), title, parent, assignee, severity, picked, order), r)
    ensures picked.Ok? ==> TrimSpace(picked.value) != ""
  {
    ghost var a0, e0, c0 := c.attempts, c.echoed, c.calls;
    var pid;
    ghost var trace;
    pid, trace, listing, picked := ResolveParent(c, parent, usePO, TrimSpace(parent) != "", pick);
    match pid
    case Fail(e) =>
      r, order := Fail(e), [];
      BugSteps(c.Runner(), title, parent, assignee, severity, listing, picked, order);
    case Ok(p) =>
      ghost var a1, e1, c1 := c.attempts, c.echoed, c.calls;
      r, order := File(c, title, assignee, severity, p);
      c.Chain(a0, e0, c0, trace, a1, e1, c1, FiledCalls(c.Runner(), title, assignee, severity, p, order),
              c.attempts, c.echoed, c.calls);
      BugSteps(c.Runner(), title, parent, assignee, severity, listing, picked, order);
  }

  /** A Bug is created under a parent given by flag only after that
      parent was shown and found to be a User Story. */
  lemma FlagParentIsStory(run: seq<string> -> Result<Output>, title: string, parent: string, assignee: string,
                          severity: string, listing: seq<seq<string>>, picked: Result<string>, order: seq<string>)
    requires TrimSpace(parent) != ""
    requires BugResult(run, title, parent, assignee, severity, picked, order).Ok?
    ensures BugCalls(run, title, parent, assignee, severity, listing, picked, order)[0] == ShowArgs(TrimSpace(parent))
    ensures var sh := ShownOf(run(ShowArgs(TrimSpace(parent))));
      sh.Ok? && sh.value.item.Some? && FieldString(sh.value.item.value.fields, TypeKey) == "User Story"
  {
    FlagParent(run, parent, listing, picked, true);
    ParentChecked(run, parent, picked);
  }

  /** An invalid severity ends the command before anything is created:
      only the parent's and the assignee's commands run, and the error
      names the value. */
  lemma InvalidSeverityCreatesNothing(run: seq<string> -> Result<Output>, title: string, parent: string,
                                      assignee: string, severity: string, listing: seq<seq<string>>,
                                      picked: Result<string>, order: seq<string>)
    requires SeverityLabel(severity).Fail?
    ensures BugResult(run, title, parent, assignee, severity, picked, order).Fail?
    ensures var check := TrimSpace(parent) != "";
      var p := Parent(run, parent, picked, check);
      && BugCalls(run, title, parent, assignee, severity, listing, picked, order)
           == ParentCalls(parent, listing, picked, check) + (if p.Ok? then AssigneeCalls(assignee) else [])
      && (p.Ok? && Assignee(run, assignee).Ok? ==>
            BugResult(run, title, parent, assignee, severity, picked, order) == Fail(InvalidSeverity(severity)))
  {
    var p := Parent(run, parent, picked, TrimSpace(parent) != "");
    if p.Ok? {
      assert FiledCalls(run, title, assignee, severity, p.value, order) == AssigneeCalls(assignee) + [];
    }
  }

  /** When the parent, the assignee and the severity are resolved, the
      Bug is created with state New and the severity (Medium when the flag
      is blank), then linked to the parent. */
  lemma FlagBugCreated(run: seq<string> -> Result<Output>, title: string, assignee: string, severity: string,
                       pid: string, order: seq<string>)
    requires Assignee(run, assignee).Ok? && SeverityField(severity).Ok?
    ensures var f := BugFields(Assignee(run, assignee).value, SeverityField(severity).value);
      && FiledCalls(run, title, assignee, severity, pid, order)
           == AssigneeCalls(assignee) + LinkCalls(run, "Bug", title, f, order, pid, "")
      && f[StateKey] == "New"
      && f[SeverityKey] in Severities
      && (TrimSpace(severity) == "" ==> f[SeverityKey] == MediumSeverity)
  {
    BugFieldsSpec(Assignee(run, assignee).value, SeverityField(severity).value);
  }

  // ---------------------------------------------------------------------
  // The interactive path

  /** The values of the Bug form. */
  datatype BugForm = BugForm(title: string, severity: string, state: string, assignee: string,
                             description: string, proceed: bool)

  /** The form's starting values: the severity from the flag, state New,
      the assignee from the flag. */
  function BugStart(severity: string, assignee: string): (f: BugForm)
    ensures f.severity in Severities && f.state == "New" && f.assignee == assignee
    ensures f.title == "" && f.description == "" && !f.proceed
  {
    BugForm("", SeverityPrefill(severity), "New", assignee, "", false)
  }

  /** The fields a Bug is created with from the form: the state as chosen,
      the severity and the assignee when not blank, and the description,
      as HTML, when its Markdown is not blank. */
  function FormFields(f: BugForm, toHtml: string -> string): (m: map<string, string>)
  {
    var m0 := map[StateKey := f.state];
    var m1 := WithNonBlank(m0, SeverityKey, f.severity);
    var m2 := WithNonBlank(m1, AssigneeKey, f.assignee);
    WithHtml(m2, DescriptionKey, f.description, toHtml)
  }

  lemma FormFieldsSpec(f: BugForm, toHtml: string -> string)
    ensures var m := FormFields(f, toHtml);
      && StateKey in m && m[StateKey] == f.state
      && (SeverityKey in m <==> TrimSpace(f.severity) != "")
      && (SeverityKey in m ==> m[SeverityKey] == f.severity)
      && (AssigneeKey in m <==> TrimSpace(f.assignee) != "")
      && (AssigneeKey in m ==> m[AssigneeKey] == f.assignee)
      && (DescriptionKey in m <==> TrimSpace(f.description) != "")
      && (DescriptionKey in m ==> m[DescriptionKey] == toHtml(f.description))
      && m.Keys <= {StateKey, SeverityKey, AssigneeKey, DescriptionKey}
  {
    KeysDistinct();
  }

  /** What the form returns, given the heading and the starting values. */
  function Answer(run: seq<string> -> Result<Output>, pid: string, assignee: string, severity: string,
                  fill: (string, BugForm) -> Result<BugForm>): Result<BugForm>
  {
    fill(ParentHeading(run, "Bug", pid), BugStart(severity, Prefill(run, assignee)))
  }

  method Ask(c: Client, pid: string, assignee: string, severity: string, fill: (string, BugForm) -> Result<BugForm>)
    returns (f: Result<BugForm>)
    modifies c`attempts, c`echoed, c`calls
    ensures c.Ran(old(c.attempts), old(c.echoed), old(c.calls), AskCalls(pid, assignee))
    ensures f == Answer(c.Runner(), pid, assignee, severity, fill)
  {
    ghost var a0, e0, c0 := c.attempts, c.echoed, c.calls;
    var who := PrefillAssignee(c, assignee);
    ghost var a1, e1, c1 := c.attempts, c.echoed, c.calls;
    var heading := ShowHeading(c, "Bug", pid);
    c.Chain(a0, e0, c0, AssigneeCalls(assignee), a1, e1, c1, [ShowArgs(pid)], c.attempts, c.echoed, c.calls);
    f := fill(heading, BugStart(severity, who));
  }

  /** The commands the form's answer `a` leads to: none when the form
      fails or is not confirmed, else the create call and what follows
      it. */
  function AnswerCalls(run: seq<string> -> Result<Output>, pid: string, a: Result<BugForm>, toHtml: string -> string,
                       order: seq<string>): seq<seq<string>>
  {
    match a
    case Fail(_) => []
    case Ok(f) => if !f.proceed then [] else LinkCalls(run, "Bug", f.title, FormFields(f, toHtml), order, pid, "")
  }

  /** The form's error, "cancelled", or what the create call and the link
      lead to. */
  function AnswerResult(run: seq<string> -> Result<Output>, pid: string, a: Result<BugForm>, toHtml: string -> string,
                        order: seq<string>): Result<Print>
  {
    match a
    case Fail(e) => Fail(e)
    case Ok(f) =>
      if !f.proceed then Fail(FormCancelled)
      else LinkResult(run, "Bug", f.title, FormFields(f, toHtml), order, "bug", "Bug Created", pid, "")
  }

  /** Acts on the form's answer. */
  method Submit(c: Client, pid: string, a: Result<BugForm>, toHtml: string -> string)
    returns (r: Result<Printed>, ghost order: seq<string>)
    modifies c`attempts, c`echoed, c`calls
    ensures a.Ok? && a.value.proceed ==> IsKeyOrder(order, FormFields(a.value, toHtml))
    ensures c.Ran(old(c.attempts), old(c.echoed), old(c.calls), AnswerCalls(c.Runner(), pid, a, toHtml, order))
    ensures Shows(AnswerResult(c.Runner(), pid, a, toHtml, order), r)
  {
    match a
    case Fail(e) =>
      c.Idle(c.attempts, c.echoed, c.calls);
      r, order := Fail(e), [];
    case Ok(v) =>
      if !v.proceed {
        c.Idle(c.attempts, c.echoed, c.calls);
        r, order := Fail(FormCancelled), [];
      } else {
        r, order := Link(c, "Bug", v.title, FormFields(v, toHtml), "bug", "Bug Created", pid, "");
      }
  }

  /** The commands once the parent is known: those before the form, then
      those its answer leads to. */
  function FormCalls(run: seq<string> -> Result<Output>, pid: string, assignee: string, severity: string,
                     fill: (string, BugForm) -> Result<BugForm>, toHtml: string -> string, order: seq<string>)
    : seq<seq<string>>
  {
    AskCalls(pid, assignee) + AnswerCalls(run, pid, Answer(run, pid, assignee, severity, fill), toHtml, order)
  }

  function FormResult(run: seq<string> -> Result<Output>, pid: string, assignee: string, severity: string,
                      fill: (string, BugForm) -> Result<BugForm>, toHtml: string -> string, order: seq<string>)
    : Result<Print>
  {
    AnswerResult(run, pid, Answer(run, pid, assignee, severity, fill), toHtml, order)
  }

  method FileForm(c: Client, pid: string, assignee: string, severity: string,
                  fill: (string, BugForm) -> Result<BugForm>, toHtml: string -> string)
    returns (r: Result<Printed>, ghost order: seq<string>)
    modifies c`attempts, c`echoed, c`calls
    ensures c.Ran(old(c.attempts), old(c.echoed), old(c.calls),
                  FormCalls(c.Runner(), pid, assignee, severity, fill, toHtml, order))
    ensures Shows(FormResult(c.Runner(), pid, assignee, severity, fill, toHtml, order), r)
  {
    ghost var a0, e0, c0 := c.attempts, c.echoed, c.calls;
    var f := Ask(c, pid, assignee, severity, fill);
    ghost var a1, e1, c1 := c.attempts, c.echoed, c.calls;
    r, order := Submit(c, pid, f, toHtml);
    c.Chain(a0, e0, c0, AskCalls(pid, assignee), a1, e1, c1, AnswerCalls(c.Runner(), pid, f, toHtml, order),
            c.attempts, c.echoed, c.calls);
  }

  /** `interactiveCreateBug`'s commands: the parent from the flag or the
      picker, never checked, then as `FormCalls` says. */
  function InteractiveCalls(run: seq<string> -> Result<Output>, parent: string, assignee: string, severity: string,
                            fill: (string, BugForm) -> Result<BugForm>, toHtml: string -> string,
                            listing: seq<seq<string>>, picked: Result<string>, order: seq<string>): seq<seq<string>>
  {
    ParentCalls(parent, listing, picked, false) +
      match Parent(run, parent, picked, false)
      case Fail(_) => []
      case Ok(pid) => FormCalls(run, pid, assignee, severity, fill, toHtml, order)
  }

  function InteractiveResult(run: seq<string> -> Result<Output>, parent: string, assignee: string, severity: string,
                             fill: (string, BugForm) -> Result<BugForm>, toHtml: string -> string,
                             picked: Result<string>, order: seq<string>): Result<Print>
  {
    match Parent(run, parent, picked, false)
    case Fail(e) => Fail(e)
    case Ok(pid) => FormResult(run, pid, assignee, severity, fill, toHtml, order)
  }

  /** `InteractiveCalls` and `InteractiveResult` case by case. */
  lemma InteractiveSteps(run: seq<string> -> Result<Output>, parent: string, assignee: string, severity: string,
                         fill: (string, BugForm) -> Result<BugForm>, toHtml: string -> string,
                         listing: seq<seq<string>>, picked: Result<string>, order: seq<string>)
    ensures var p := Parent(run, parent, picked, false);
      var calls := InteractiveCalls(run, parent, assignee, severity, fill, toHtml, listing, picked, order);
      var res := InteractiveResult(run, parent, assignee, severity, fill, toHtml, picked, order);
      && (p.Fail? ==> calls == ParentCalls(parent, listing, picked, false) && res == Fail(p.error))
      && (p.Ok? ==>
            && calls == ParentCalls(parent, listing, picked, false) + FormCalls(run, p.value, assignee, severity, fill, toHtml, order)
            && res == FormResult(run, p.value, assignee, severity, fill, toHtml, order))
  {
    assert ParentCalls(parent, listing, picked, false) + [] == ParentCalls(parent, listing, picked, false);
  }

  method CreateBugInteractively(c: Client, parent: string, assignee: string, severity: string, usePO: bool,
                                pick: seq<Choice> -> Result<string>, fill: (string, BugForm) -> Result<BugForm>,
                                toHtml: string -> string)
    returns (r: Result<Printed>, ghost listing: seq<seq<string>>, ghost picked: Result<string>,
             ghost order: seq<string>)
    modifies c`attempts, c`echoed, c`calls
    ensures c.Ran(old(c.attempts), old(c.echoed), old(c.calls),
                  InteractiveCalls(c.Runner(), parent, assignee, severity, fill, toHtml, listing, picked, order))
    ensures Shows(InteractiveResult(c.Runner(), parent, assignee, severity, fill, toHtml, picked, order), r)
    ensures picked.Ok? ==> TrimSpace(picked.value) != ""
  {
    ghost var a0, e0, c0 := c.attempts, c.echoed, c.calls;
    var pid;
    ghost var trace;
    pid, trace, listing, picked := ResolveParent(c, parent, usePO, false, pick);
    match pid
    case Fail(e) =>
      r, order := Fail(e), [];
      InteractiveSteps(c.Runner(), parent, assignee, severity, fill, toHtml, listing, picked, order);
    case Ok(p) =>
      ghost var a1, e1, c1 := c.attempts, c.echoed, c.calls;
      r, order := FileForm(c, p, assignee, severity, fill, toHtml);
      c.Chain(a0, e0, c0, trace, a1, e1, c1, FormCalls(c.Runner(), p, assignee, severity, fill, toHtml, order),
              c.attempts, c.echoed, c.calls);
      InteractiveSteps(c.Runner(), parent, assignee, severity, fill, toHtml, listing, picked, order);
  }

  /** An invalid severity flag does not stop the form: it opens at
      Medium. */
  lemma InvalidSeverityOpensAtMedium(severity: string, assignee: string)
    requires SeverityLabel(severity).Fail?
    ensures BugStart(severity, assignee).severity == MediumSeverity
  {
  }

  /** A form that fails or is not confirmed creates nothing: only the
      commands before the form run. */
  lemma UnconfirmedCreatesNothing(run: seq<string> -> Result<Output>, pid: string, assignee: string, severity: string,
                                  fill: (string, BugForm) -> Result<BugForm>, toHtml: string -> string,
                                  order: seq<string>)
    requires var a := Answer(run, pid, assignee, severity, fill); a.Fail? || !a.value.proceed
    ensures FormCalls(run, pid, assignee, severity, fill, toHtml, order) == AskCalls(pid, assignee)
    ensures FormResult(run, pid, assignee, severity, fill, toHtml, order).Fail?
  {
    assert AskCalls(pid, assignee) + [] == AskCalls(pid, assignee);
  }

  /** `create bug [title]`: the form without a title argument, the flag
      path with one. */
  method BugCmd(c: Client, args: seq<string>, parent: string, assignee: string, severity: string, usePO: bool,
                pick: seq<Choice> -> Result<string>, fill: (string, BugForm) -> Result<BugForm>,
                toHtml: string -> string)
    returns (r: Result<Printed>, ghost listing: seq<seq<string>>, ghost picked: Result<string>,
             ghost order: seq<string>)
    requires |args| <= 1
    modifies c`attempts, c`echoed, c`calls
    ensures |args| == 0 ==>
      && c.Ran(old(c.attempts), old(c.echoed), old(c.calls),
               InteractiveCalls(c.Runner(), parent, assignee, severity, fill, toHtml, listing, picked, order))
      && Shows(InteractiveResult(c.Runner(), parent, assignee, severity, fill, toHtml, picked, order), r)
    ensures |args| == 1 ==>
      && c.Ran(old(c.attempts), old(c.echoed), old(c.calls),
               BugCalls(c.Runner(), args[0], parent, assignee, severity, listing, picked, order))
      && Shows(BugResult(c.Runner(), args[0], parent, assignee, severity, picked, order), r)
    ensures picked.Ok? ==> TrimSpace(picked.value) != ""
  {
    if |args| == 0 {
      r, listing, picked, order := CreateBugInteractively(c, parent, assignee, severity, usePO, pick, fill, toHtml);
    } else {
      r, listing, picked, order := CreateBug(c, args[0], parent, assignee, severity, usePO, pick);
    }
  }
}
