/** The `az` front end: the confirmation policy, the gate every command
    passes before it reaches the executor, and the argument vectors of the
    commands the tool issues (internal/az/az.go).

    The package's globals (`confirmMode`, `silent`, `azExec`) are the fields
    of one `Client` object. The executor and the yes/no confirmation form
    are function-valued fields: the executor maps an argument vector to
    scripted output or an error, and the form maps the command it shows to
    the user's answer. The client records every command handed to it
    (`attempts`), every command line it echoed to standard error (`echoed`)
    and every command that reached the executor (`calls`). */
module Az {
  import opened Errors
  import opened Strs
  import opened Json

  datatype ConfirmMode = Always | Mutations | Never

  const AlwaysWords: set<string> := {"always", "all", "true", "on", "1", "yes", "y"}
  const MutationWords: set<string> := {"mutations", "mutation", "writes", "write", "updates", "changes"}
  const NeverWords: set<string> := {"never", "none", "false", "off", "0", "no", "n"}

  /** A mode word after trimming and lower-casing. */
  function Normalize(mode: string): string
  {
    ToLower(TrimSpace(mode))
  }

  /** The mode a normalised word names, if it names one. */
  function WordMode(v: string): Option<ConfirmMode>
  {
    if v in AlwaysWords then Some(Always)
    else if v in MutationWords then Some(Mutations)
    else if v in NeverWords then Some(Never)
    else None
  }

  /** `parseConfirmMode`: the mode a word selects, or the current mode
      (with an error for an unknown word, without one for a blank word). */
  function ParseConfirmMode(mode: string, current: ConfirmMode): (r: (ConfirmMode, Option<Error>))
    ensures r.1.Some? ==> r == (current, Some(InvalidConfirmMode(mode)))
  {
    var (m, ok) := Select(Normalize(mode), current);
    (m, if ok then None else Some(InvalidConfirmMode(mode)))
  }

  /** The mode a normalised word selects and whether it is accepted: a
      blank word keeps the current mode. */
  function Select(v: string, current: ConfirmMode): (ConfirmMode, bool)
  {
    match WordMode(v)
    case Some(m) => (m, true)
    case None => (current, v == "")
  }

  /** A word with no upper-case letter is its own lower-case form. */
  lemma ToLowerOfLower(s: string)
    requires forall i :: 0 <= i < |s| ==> !('A' <= s[i] <= 'Z')
    ensures ToLower(s) == s
  {
  }

  lemma ToLowerIdempotent(s: string)
    ensures ToLower(ToLower(s)) == ToLower(s)
  {
  }

  /** Lower-casing keeps white space where it is, so a trimmed word stays
      trimmed. */
  lemma {:induction false} NormalizeIdempotent(s: string)
    ensures Normalize(Normalize(s)) == Normalize(s)
  {
    var t := TrimSpace(s);
    var l := ToLower(t);
    TrimSpaceSpec(s);
    if l != [] {
      assert ToLowerChar(t[0]) == l[0] && !IsSpace(l[0]);
      assert ToLowerChar(t[|t| - 1]) == l[|l| - 1] && !IsSpace(l[|l| - 1]);
      assert TrimLeft(l) == l;
      assert TrimRight(l) == l;
    }
    ToLowerIdempotent(t);
  }

  /** Surrounding white space and letter case never change what a word
      selects. */
  lemma ParseConfirmModeNormalized(mode: string, current: ConfirmMode)
    ensures ParseConfirmMode(Normalize(mode), current).0 == ParseConfirmMode(mode, current).0
    ensures ParseConfirmMode(Normalize(mode), current).1.None? == ParseConfirmMode(mode, current).1.None?
  {
    NormalizeIdempotent(mode);
    var v := Normalize(mode);
    assert Select(Normalize(v), current) == Select(v, current);
  }

  /** A word that neither starts nor ends with a space and has no
      upper-case letter is already normalised. */
  lemma NormalizedWord(w: string)
    requires |w| > 0 && !IsSpace(w[0]) && !IsSpace(w[|w| - 1])
    requires forall i :: 0 <= i < |w| ==> !('A' <= w[i] <= 'Z')
    ensures Normalize(w) == w
  {
    assert TrimLeft(w) == w;
    assert TrimRight(w) == w;
    ToLowerOfLower(w);
  }

  lemma AlwaysNormalized()
    ensures Normalize("always") == "always"
  {
    NormalizedWord("always");
  }

  lemma MutationsNormalized()
    ensures Normalize("mutations") == "mutations"
  {
    NormalizedWord("mutations");
  }

  lemma NeverNormalized()
    ensures Normalize("never") == "never"
  {
    NormalizedWord("never");
  }

  lemma CanonicalNamesClassified()
    ensures WordMode("always") == Some(Always)
    ensures WordMode("mutations") == Some(Mutations)
    ensures WordMode("never") == Some(Never)
  {
  }

  /** The canonical mode names select their modes, whatever the current
      mode. */
  lemma ParseConfirmModeNames(current: ConfirmMode)
    ensures ParseConfirmMode("always", current) == (Always, None)
    ensures ParseConfirmMode("mutations", current) == (Mutations, None)
    ensures ParseConfirmMode("never", current) == (Never, None)
  {
    AlwaysNormalized();
    MutationsNormalized();
    NeverNormalized();
    CanonicalNamesClassified();
  }

  /** The word table of `parseConfirmMode`: a word whose normalised form is
      in one of the three sets selects that set's mode, a blank word keeps
      the current mode without an error, and any other word keeps it with
      the error naming the word. */
  lemma ParseConfirmModeSelects(w: string, current: ConfirmMode)
    ensures Normalize(w) in AlwaysWords ==> ParseConfirmMode(w, current) == (Always, None)
    ensures Normalize(w) in MutationWords ==> ParseConfirmMode(w, current) == (Mutations, None)
    ensures Normalize(w) in NeverWords ==> ParseConfirmMode(w, current) == (Never, None)
    ensures TrimSpace(w) == "" ==> ParseConfirmMode(w, current) == (current, None)
    ensures TrimSpace(w) != "" && Normalize(w) !in AlwaysWords + MutationWords + NeverWords ==>
      ParseConfirmMode(w, current) == (current, Some(InvalidConfirmMode(w)))
  {
    assert |Normalize(w)| == |TrimSpace(w)|;
    assert AlwaysWords !! MutationWords && AlwaysWords !! NeverWords && MutationWords !! NeverWords;
  }

  /** Every word of the table, written as listed, selects its mode whatever
      the current mode: "on" and "true" always confirm, "off" and "false"
      never do. */
  lemma ConfirmWordsSelect(current: ConfirmMode)
    ensures forall w :: w in AlwaysWords ==> ParseConfirmMode(w, current) == (Always, None)
    ensures forall w :: w in MutationWords ==> ParseConfirmMode(w, current) == (Mutations, None)
    ensures forall w :: w in NeverWords ==> ParseConfirmMode(w, current) == (Never, None)
  {
    AlwaysWordsNormalized();
    MutationWordsNormalized();
    NeverWordsNormalized();
    forall w | w in AlwaysWords + MutationWords + NeverWords {
      ParseConfirmModeSelects(w, current);
    }
  }

  lemma AlwaysWordsNormalized()
    ensures forall w :: w in AlwaysWords ==> Normalize(w) == w
  {
    forall w | w in AlwaysWords
      ensures Normalize(w) == w
    {
      NormalizedWord(w);
    }
  }

  lemma MutationWordsNormalized()
    ensures forall w :: w in MutationWords ==> Normalize(w) == w
  {
    forall w | w in MutationWords
      ensures Normalize(w) == w
    {
      NormalizedWord(w);
    }
  }

  lemma NeverWordsNormalized()
    ensures forall w :: w in NeverWords ==> Normalize(w) == w
  {
    forall w | w in NeverWords
      ensures Normalize(w) == w
    {
      NormalizedWord(w);
    }
  }

  // ---------------------------------------------------------------------
  // The confirmation gate

  /** The first index at or after `i` holding `--method` with a token after
      it (the value of the method flag). */
  function MethodFlagFrom(args: seq<string>, i: nat): (k: Option<nat>)
    ensures k.Some? ==> i <= k.value && k.value + 1 < |args| && args[k.value] == "--method"
    ensures k.Some? ==> forall j :: i <= j < k.value ==> args[j] != "--method"
    ensures k.None? ==> forall j :: i <= j < |args| - 1 ==> args[j] != "--method"
    decreases |args| - i
  {
    if i + 1 >= |args| then None
    else if args[i] == "--method" then Some(i)
    else MethodFlagFrom(args, i + 1)
  }

  /** The first index at or after `i` where `boards work-item` is followed
      by at least one more token. */
  function WorkItemFrom(args: seq<string>, i: nat): (k: Option<nat>)
    ensures k.Some? ==> i <= k.value && k.value + 2 < |args| && args[k.value] == "boards" && args[k.value + 1] == "work-item"
    ensures k.Some? ==> forall j :: i <= j < k.value ==> !(args[j] == "boards" && args[j + 1] == "work-item")
    ensures k.None? ==> forall j :: i <= j < |args| - 2 ==> !(args[j] == "boards" && args[j + 1] == "work-item")
    decreases |args| - i
  {
    if i + 2 >= |args| then None
    else if args[i] == "boards" && args[i + 1] == "work-item" then Some(i)
    else WorkItemFrom(args, i + 1)
  }

  const WriteVerbs: set<string> := {"create", "update", "delete"}
  const RelationOps: set<string> := {"add", "remove", "delete"}

  /** The sub-command after `boards work-item` at `k` changes data. */
  predicate MutatingAt(args: seq<string>, k: nat)
    requires k + 2 < |args|
  {
    var a := ToLower(args[k + 2]);
    a in WriteVerbs || (a == "relation" && k + 3 < |args| && ToLower(args[k + 3]) in RelationOps)
  }

  /** `shouldConfirm`: whether `args` must be confirmed under `mode`. Under
      `Mutations` a `rest` call is confirmed unless its method is GET (no
      method at all counts as a write); otherwise only the first
      `boards work-item` sub-command decides, and anything else is a read. */
  predicate NeedsConfirm(mode: ConfirmMode, args: seq<string>)
  {
    match mode
    case Never => false
    case Always => true
    case Mutations =>
      if |args| == 0 then false
      else if args[0] == "rest" then
        (match MethodFlagFrom(args, 1)
         case None => true
         case Some(k) => ToLower(args[k + 1]) != "get")
      else
        (match WorkItemFrom(args, 0)
         case None => false
         case Some(k) => MutatingAt(args, k))
  }

  /** The classifier as the source computes it, with two scanning loops. */
  method ShouldConfirm(mode: ConfirmMode, args: seq<string>) returns (confirm: bool)
    ensures confirm == NeedsConfirm(mode, args)
  {
    match mode
    case Never => return false;
    case Always => return true;
    case Mutations =>
      if |args| == 0 {
        return false;
      }
      if args[0] == "rest" {
        var i := 1;
        while i < |args|
          invariant 1 <= i <= |args|
          invariant MethodFlagFrom(args, 1) == MethodFlagFrom(args, i)
        {
          if args[i] == "--method" && i + 1 < |args| {
            return ToLower(args[i + 1]) != "get";
          }
          i := i + 1;
        }
        return true;
      }
      var i := 0;
      while i + 2 < |args|
        invariant WorkItemFrom(args, 0) == WorkItemFrom(args, i)
      {
        if args[i] == "boards" && args[i + 1] == "work-item" {
          var a := ToLower(args[i + 2]);
          if a in WriteVerbs {
            return true;
          }
          if a == "relation" {
            if i + 3 < |args| {
              var op := ToLower(args[i + 3]);
              return op in RelationOps;
            }
          }
          return false;
        }
        i := i + 1;
      }
      return false;
  }

  // ---------------------------------------------------------------------
  // Argument vectors

  /** `order` lists every key of `fields` exactly once: one of the orders in
      which a Go `range` over the map may visit it. */
  predicate IsKeyOrder(order: seq<string>, fields: map<string, string>)
  {
    (forall k :: k in order ==> k in fields) && (forall k :: k in fields ==> k in order) && Distinct(order)
  }

  /** One `key=value` token per key of the map, in `order` (keys `order`
      lists that the map lacks give no token). */
  function FieldArgs(fields: map<string, string>, order: seq<string>): (r: seq<string>)
    ensures |r| <= |order|
    ensures (forall k :: k in order ==> k in fields) ==>
      |r| == |order| && forall i :: 0 <= i < |order| ==> r[i] == order[i] + "=" + fields[order[i]]
  {
    if |order| == 0 then []
    else
      var k := order[|order| - 1];
      FieldArgs(fields, order[..|order| - 1]) + (if k in fields then [k + "=" + fields[k]] else [])
  }

  function ShowArgs(id: string): seq<string>
  {
    ["boards", "work-item", "show", "--id", id, "-o", "json"]
  }

  /** `--fields` and the tokens appear only for a non-empty map. */
  function UpdateArgs(id: string, fields: map<string, string>, order: seq<string>): seq<string>
  {
    var head := ["boards", "work-item", "update", "--id", id];
    if |fields| > 0 then head + ["--fields"] + FieldArgs(fields, order) + ["-o", "json"]
    else head + ["-o", "json"]
  }

  function CreateArgs(wiType: string, title: string, fields: map<string, string>, order: seq<string>): seq<string>
  {
    var head := ["boards", "work-item", "create", "--type", wiType, "--title", title];
    if |fields| > 0 then head + ["--fields"] + FieldArgs(fields, order) + ["-o", "json"]
    else head + ["-o", "json"]
  }

  function RelationArgs(id: string, relationType: string, targetId: string): seq<string>
  {
    ["boards", "work-item", "relation", "add", "--id", id, "--relation-type", relationType, "--target-id", targetId, "-o", "json"]
  }

  function DeleteArgs(id: string): seq<string>
  {
    ["boards", "work-item", "delete", "--id", id, "--yes", "-o", "json"]
  }

  function AssigneeArgs(id: string, assignee: string): seq<string>
  {
    ["boards", "work-item", "update", "--id", id, "--assigned-to", assignee, "-o", "json"]
  }

  function QueryArgs(wiql: string): seq<string>
  {
    ["boards", "query", "--wiql", wiql, "-o", "json"]
  }

  function RestGetArgs(url: string): seq<string>
  {
    ["rest", "--method", "get", "--url", url]
  }

  /** `ad signed-in-user show` asking for one property as plain text. */
  function SignedInUserArgs(property: string): seq<string>
  {
    ["ad", "signed-in-user", "show", "--query", property, "-o", "tsv"]
  }

  /** Builds the `key=value` tokens by ranging over the map. */
  method FieldTokens(fields: map<string, string>) returns (tokens: seq<string>, ghost order: seq<string>)
    ensures IsKeyOrder(order, fields)
    ensures tokens == FieldArgs(fields, order)
    ensures |tokens| == |fields|
    ensures forall k :: k in fields ==> k + "=" + fields[k] in tokens
  {
    tokens, order := [], [];
    var rest := fields.Keys;
    while rest != {}
      invariant rest <= fields.Keys
      invariant forall k :: k in order ==> k in fields && k !in rest
      invariant forall k :: k in fields ==> k in order || k in rest
      invariant Distinct(order)
      invariant tokens == FieldArgs(fields, order)
      decreases rest
    {
      var k :| k in rest;
      tokens := tokens + [k + "=" + fields[k]];
      order := order + [k];
      rest := rest - {k};
    }
    FieldArgsCover(fields, order);
  }

  lemma TwoElements(order: seq<string>)
    requires |order| > 1
    ensures order[0] in order && order[1] in order
  {
  }

  /** A one-field update is the argv
      `boards work-item update --id <id> --fields <k>=<v> -o json`. */
  lemma SingleFieldUpdate(id: string, k: string, v: string)
    ensures UpdateArgs(id, map[k := v], [k]) ==
      ["boards", "work-item", "update", "--id", id, "--fields", k + "=" + v, "-o", "json"]
  {
  }

  /** A one-entry map has exactly one key order. */
  lemma KeyOrderSingleton(k: string, v: string, order: seq<string>)
    requires IsKeyOrder(order, map[k := v])
    ensures order == [k]
  {
    assert k in order;
    forall i | 0 <= i < |order|
      ensures order[i] == k
    {
      assert order[i] in order;
    }
    if |order| > 1 {
      TwoElements(order);
      assert false;
    }
  }

  lemma {:induction false} DistinctSize(order: seq<string>)
    requires Distinct(order)
    ensures |(set k | k in order)| == |order|
  {
    if |order| > 0 {
      var init := order[..|order| - 1];
      var last := order[|order| - 1];
      DistinctSize(init);
      assert (set k | k in order) == (set k | k in init) + {last};
      assert last !in (set k | k in init);
    }
  }

  /** The field tokens hold one `key=value` token for every entry of the
      map, and nothing else. */
  lemma FieldArgsCover(fields: map<string, string>, order: seq<string>)
    requires IsKeyOrder(order, fields)
    ensures |FieldArgs(fields, order)| == |fields|
    ensures forall k :: k in fields ==> k + "=" + fields[k] in FieldArgs(fields, order)
  {
    var tokens := FieldArgs(fields, order);
    forall k | k in fields
      ensures k + "=" + fields[k] in tokens
    {
      var i :| 0 <= i < |order| && order[i] == k;
      assert tokens[i] == k + "=" + fields[k];
    }
    DistinctSize(order);
    assert (set k | k in order) == fields.Keys;
  }

  // ---------------------------------------------------------------------
  // What the gate does to each command

  /** Under `Mutations`, a command starting `boards work-item` is
      confirmed exactly when its sub-command changes data. */
  lemma WorkItemCommand(args: seq<string>)
    requires |args| >= 3 && args[0] == "boards" && args[1] == "work-item"
    ensures NeedsConfirm(Mutations, args) == MutatingAt(args, 0)
  {
  }

  lemma UpdateLower() ensures ToLower("update") == "update" { ToLowerOfLower("update"); }
  lemma CreateLower() ensures ToLower("create") == "create" { ToLowerOfLower("create"); }
  lemma DeleteLower() ensures ToLower("delete") == "delete" { ToLowerOfLower("delete"); }
  lemma ShowLower() ensures ToLower("show") == "show" { ToLowerOfLower("show"); }

  lemma RelationLower()
    ensures ToLower("relation") == "relation" && ToLower("add") == "add"
  {
    ToLowerOfLower("relation");
    ToLowerOfLower("add");
  }

  /** Under `Mutations`, updating, creating and deleting a work item are
      confirmed. */
  lemma MutationsGateUpdate(id: string, fields: map<string, string>, order: seq<string>, assignee: string)
    ensures NeedsConfirm(Mutations, UpdateArgs(id, fields, order))
    ensures NeedsConfirm(Mutations, AssigneeArgs(id, assignee))
  {
    UpdateLower();
    WorkItemCommand(UpdateArgs(id, fields, order));
    WorkItemCommand(AssigneeArgs(id, assignee));
  }

  lemma MutationsGateCreate(wiType: string, title: string, fields: map<string, string>, order: seq<string>)
    ensures NeedsConfirm(Mutations, CreateArgs(wiType, title, fields, order))
  {
    CreateLower();
    WorkItemCommand(CreateArgs(wiType, title, fields, order));
  }

  lemma MutationsGateDelete(id: string)
    ensures NeedsConfirm(Mutations, DeleteArgs(id))
  {
    DeleteLower();
    WorkItemCommand(DeleteArgs(id));
  }

  /** Under `Mutations`, adding a relation is confirmed. */
  lemma MutationsGateRelation(id: string, rel: string, target: string)
    ensures NeedsConfirm(Mutations, RelationArgs(id, rel, target))
  {
    RelationLower();
    WorkItemCommand(RelationArgs(id, rel, target));
  }

  /** Under `Mutations`, showing a work item is not confirmed. */
  lemma MutationsPassShow(id: string)
    ensures !NeedsConfirm(Mutations, ShowArgs(id))
  {
    ShowLower();
    WorkItemCommand(ShowArgs(id));
    assert "show" != "relation";
  }

  /** Under `Mutations`, queries, user look-ups and GET requests go through
      without a prompt, while a `rest` call naming no method is confirmed. */
  lemma MutationsPassReads(wiql: string, url: string, property: string)
    ensures !NeedsConfirm(Mutations, QueryArgs(wiql))
    ensures !NeedsConfirm(Mutations, RestGetArgs(url))
    ensures !NeedsConfirm(Mutations, SignedInUserArgs(property))
    ensures NeedsConfirm(Mutations, ["rest", "--url", url])
  {
    var q := QueryArgs(wiql);
    assert WorkItemFrom(q, 3) == None;
    assert WorkItemFrom(q, 2) == None;
    assert WorkItemFrom(q, 1) == None;
    var u := SignedInUserArgs(property);
    assert WorkItemFrom(u, 4) == None;
    assert WorkItemFrom(u, 3) == None;
    assert WorkItemFrom(u, 2) == None;
    assert WorkItemFrom(u, 1) == None;
    assert MethodFlagFrom(["rest", "--url", url], 2) == None;
    ToLowerOfLower("get");
  }

  // ---------------------------------------------------------------------
  // The client

  /** The confirmation form's outcome: yes, no, or the form itself failed. */
  datatype Answer = Approve | Decline | Abort(reason: string)

  /** `ShowWorkItem`'s results: the raw output and the decoded item, which
      is absent when the output does not decode. */
  datatype Shown = Shown(raw: Output, item: Option<WorkItem>)

  /** What `runAz(args)` returns under confirmation mode `mode`, prompt
      `confirm` and executor `exec`. */
  function Gated(mode: ConfirmMode, confirm: seq<string> -> Answer, exec: seq<string> -> Result<Output>,
                 args: seq<string>): Result<Output>
  {
    if NeedsConfirm(mode, args) then
      match confirm(args)
      case Approve => exec(args)
      case Decline => Fail(Cancelled)
      case Abort(reason) => Fail(PromptFailed(reason))
    else
      exec(args)
  }

  class Client {
    var mode: ConfirmMode
    var silent: bool
    var exec: seq<string> -> Result<Output>
    var confirm: seq<string> -> Answer
    var attempts: seq<seq<string>>
    var echoed: seq<seq<string>>
    var calls: seq<seq<string>>

    /** The package's initial state: `Mutations`, adjusted by a non-blank
        `AB_CONFIRM` (whose errors are ignored), and echo on. */
    constructor (abConfirm: string, exec: seq<string> -> Result<Output>, confirm: seq<string> -> Answer)
      ensures mode == ParseConfirmMode(abConfirm, Mutations).0
      ensures !silent && this.exec == exec && this.confirm == confirm
      ensures attempts == [] && echoed == [] && calls == []
    {
      mode := Mutations;
      silent := false;
      this.exec := exec;
      this.confirm := confirm;
      attempts, echoed, calls := [], [], [];
      new;
      if TrimSpace(abConfirm) != "" {
        var _ := SetConfirmMode(abConfirm);
      }
    }

    /** `SetConfirmMode`: on an error the mode is left as it was. */
    method SetConfirmMode(m: string) returns (err: Option<Error>)
      modifies this`mode
      ensures (mode, err) == ParseConfirmMode(m, old(mode))
      ensures err.Some? ==> mode == old(mode)
    {
      var (parsed, e) := ParseConfirmMode(m, mode);
      if e.Some? {
        return e;
      }
      mode := parsed;
      return None;
    }

    method SetSilent(s: bool)
      modifies this`silent
      ensures silent == s
    {
      silent := s;
    }

    method SetExecutorForTest(f: seq<string> -> Result<Output>)
      modifies this`exec
      ensures exec == f
    {
      exec := f;
    }

    /** The command reaches the executor: it needs no confirmation, or the
        user approved it. */
    predicate Passes(args: seq<string>)
      reads this`mode, this`confirm
    {
      !NeedsConfirm(mode, args) || confirm(args) == Approve
    }

    /** What `runAz(args)` returns. */
    function Outcome(args: seq<string>): (r: Result<Output>)
      reads this`mode, this`confirm, this`exec
      ensures Passes(args) ==> r == exec(args)
      ensures !Passes(args) ==> r.Fail? && (r.error == Cancelled <==> confirm(args) == Decline)
    {
      Gated(mode, confirm, exec, args)
    }

    /** `Outcome` as a function value, for the specifications of runs of
        several commands. */
    function Runner(): (run: seq<string> -> Result<Output>)
      reads this`mode, this`confirm, this`exec
      ensures forall args :: run(args) == Outcome(args)
    {
      var m, ask, ex := mode, confirm, exec;
      (args: seq<string>) => Gated(m, ask, ex, args)
    }

    /** `c0` extended with the commands of `trace` that reach the
        executor, in order. */
    function Executed(c0: seq<seq<string>>, trace: seq<seq<string>>): (r: seq<seq<string>>)
      reads this`mode, this`confirm
      ensures |r| <= |c0| + |trace|
    {
      if trace == [] then c0
      else
        var last := trace[|trace| - 1];
        var before := Executed(c0, trace[..|trace| - 1]);
        if Passes(last) then before + [last] else before
    }

    /** Since the recorded state `(a0, e0, c0)`, exactly the commands of
        `trace` were handed to `runAz`: each was echoed unless silent, and
        those that passed the gate were executed. */
    predicate Ran(a0: seq<seq<string>>, e0: seq<seq<string>>, c0: seq<seq<string>>, trace: seq<seq<string>>)
      reads this
    {
      Logged(a0, e0, c0, trace, attempts, echoed, calls)
    }

    /** The logs went from `(a0, e0, c0)` to `(a, e, cl)` by handing the
        commands of `trace` to `runAz`. */
    predicate Logged(a0: seq<seq<string>>, e0: seq<seq<string>>, c0: seq<seq<string>>, trace: seq<seq<string>>,
                     a: seq<seq<string>>, e: seq<seq<string>>, cl: seq<seq<string>>)
      reads this`mode, this`confirm, this`silent
    {
      && a == a0 + trace
      && e == (if silent then e0 else e0 + trace)
      && cl == Executed(c0, trace)
    }

    lemma {:induction false} ExecutedAppend(c0: seq<seq<string>>, t: seq<seq<string>>, u: seq<seq<string>>)
      ensures Executed(c0, t + u) == Executed(Executed(c0, t), u)
      decreases |u|
    {
      if u == [] {
        assert t + u == t;
      } else {
        var u' := u[..|u| - 1];
        ExecutedAppend(c0, t, u');
        assert (t + u)[..|t + u| - 1] == t + u';
        assert (t + u)[|t + u| - 1] == u[|u| - 1];
      }
    }

    /** Two stretches of logging compose into one. */
    lemma Chain(a0: seq<seq<string>>, e0: seq<seq<string>>, c0: seq<seq<string>>, t: seq<seq<string>>,
                a1: seq<seq<string>>, e1: seq<seq<string>>, c1: seq<seq<string>>, u: seq<seq<string>>,
                a2: seq<seq<string>>, e2: seq<seq<string>>, c2: seq<seq<string>>)
      requires Logged(a0, e0, c0, t, a1, e1, c1)
      requires Logged(a1, e1, c1, u, a2, e2, c2)
      ensures Logged(a0, e0, c0, t + u, a2, e2, c2)
    {
      ExecutedAppend(c0, t, u);
      assert a2 == a0 + (t + u);
      assert !silent ==> e2 == e0 + (t + u);
    }

    /** Nothing handed to `runAz` leaves the logs as they were. */
    lemma Idle(a0: seq<seq<string>>, e0: seq<seq<string>>, c0: seq<seq<string>>)
      ensures Logged(a0, e0, c0, [], a0, e0, c0)
    {
      assert a0 + [] == a0 && e0 + [] == e0;
    }

    /** `runAz`: echo unless silent, confirm when the gate says so, then run
        the executor at most once. A declined prompt returns `Cancelled`
        and a failed prompt its error, and neither reaches the executor. */
    method RunAz(args: seq<string>) returns (r: Result<Output>)
      modifies this`attempts, this`echoed, this`calls
      ensures attempts == old(attempts) + [args]
      ensures echoed == if silent then old(echoed) else old(echoed) + [args]
      ensures calls == if Passes(args) then old(calls) + [args] else old(calls)
      ensures r == Outcome(args)
    {
      attempts := attempts + [args];
      if !silent {
        echoed := echoed + [args];
      }
      var gate := ShouldConfirm(mode, args);
      if gate {
        var answer := confirm(args);
        match answer
        case Abort(reason) =>
          return Fail(PromptFailed(reason));
        case Decline =>
          return Fail(Cancelled);
        case Approve =>
      }
      calls := calls + [args];
      r := exec(args);
    }

    /** `CurrentUserUPN`: the trimmed principal name. */
    method CurrentUserUPN() returns (r: Result<string>)
      modifies this`attempts, this`echoed, this`calls
      ensures Ran(old(attempts), old(echoed), old(calls), [SignedInUserArgs("userPrincipalName")])
      ensures r == TrimmedText(Outcome(SignedInUserArgs("userPrincipalName")))
    {
      var out := RunAz(SignedInUserArgs("userPrincipalName"));
      r := TrimmedText(out);
    }

    /** `CurrentUserDisplayName`: the trimmed display name. */
    method CurrentUserDisplayName() returns (r: Result<string>)
      modifies this`attempts, this`echoed, this`calls
      ensures Ran(old(attempts), old(echoed), old(calls), [SignedInUserArgs("displayName")])
      ensures r == TrimmedText(Outcome(SignedInUserArgs("displayName")))
    {
      var out := RunAz(SignedInUserArgs("displayName"));
      r := TrimmedText(out);
    }

    method QueryWIQL(wiql: string) returns (r: Result<Output>)
      modifies this`attempts, this`echoed, this`calls
      ensures Ran(old(attempts), old(echoed), old(calls), [QueryArgs(wiql)])
      ensures r == Outcome(QueryArgs(wiql))
    {
      r := RunAz(QueryArgs(wiql));
    }

    /** `ShowWorkItem`: output that does not decode is passed through with
        no item and no error. */
    method ShowWorkItem(id: string) returns (r: Result<Shown>)
      modifies this`attempts, this`echoed, this`calls
      ensures Ran(old(attempts), old(echoed), old(calls), [ShowArgs(id)])
      ensures r == ShownOf(Outcome(ShowArgs(id)))
    {
      var out := RunAz(ShowArgs(id));
      r := ShownOf(out);
    }

    method UpdateWorkItemFields(id: string, fields: map<string, string>) returns (r: Result<Output>, ghost order: seq<string>)
      modifies this`attempts, this`echoed, this`calls
      ensures IsKeyOrder(order, fields)
      ensures Ran(old(attempts), old(echoed), old(calls), [UpdateArgs(id, fields, order)])
      ensures r == Outcome(UpdateArgs(id, fields, order))
    {
      var args := ["boards", "work-item", "update", "--id", id];
      var tokens;
      tokens, order := FieldTokens(fields);
      if |fields| > 0 {
        args := args + ["--fields"] + tokens;
      }
      args := args + ["-o", "json"];
      r := RunAz(args);
    }

    /** `CreateWorkItem`; the relation argument is accepted and ignored. */
    method CreateWorkItem(wiType: string, title: string, fields: map<string, string>, relation: string)
      returns (r: Result<Output>, ghost order: seq<string>)
      modifies this`attempts, this`echoed, this`calls
      ensures IsKeyOrder(order, fields)
      ensures Ran(old(attempts), old(echoed), old(calls), [CreateArgs(wiType, title, fields, order)])
      ensures r == Outcome(CreateArgs(wiType, title, fields, order))
    {
      var args := ["boards", "work-item", "create", "--type", wiType, "--title", title];
      var tokens;
      tokens, order := FieldTokens(fields);
      if |fields| > 0 {
        args := args + ["--fields"] + tokens;
      }
      args := args + ["-o", "json"];
      r := RunAz(args);
    }

    method AddWorkItemRelation(id: string, relationType: string, targetId: string) returns (r: Result<Output>)
      modifies this`attempts, this`echoed, this`calls
      ensures Ran(old(attempts), old(echoed), old(calls), [RelationArgs(id, relationType, targetId)])
      ensures r == Outcome(RelationArgs(id, relationType, targetId))
    {
      r := RunAz(RelationArgs(id, relationType, targetId));
    }

    method DeleteWorkItem(id: string) returns (r: Result<Output>)
      modifies this`attempts, this`echoed, this`calls
      ensures Ran(old(attempts), old(echoed), old(calls), [DeleteArgs(id)])
      ensures r == Outcome(DeleteArgs(id))
    {
      r := RunAz(DeleteArgs(id));
    }

    method UpdateWorkItemAssignee(id: string, assignee: string) returns (r: Result<Output>)
      modifies this`attempts, this`echoed, this`calls
      ensures Ran(old(attempts), old(echoed), old(calls), [AssigneeArgs(id, assignee)])
      ensures r == Outcome(AssigneeArgs(id, assignee))
    {
      r := RunAz(AssigneeArgs(id, assignee));
    }

    /** `azRestGET`. */
    method RestGet(url: string) returns (r: Result<Output>)
      modifies this`attempts, this`echoed, this`calls
      ensures Ran(old(attempts), old(echoed), old(calls), [RestGetArgs(url)])
      ensures r == Outcome(RestGetArgs(url))
    {
      r := RunAz(RestGetArgs(url));
    }
  }

  /** A successful output's text, trimmed; errors pass through. */
  function TrimmedText(out: Result<Output>): (r: Result<string>)
    ensures r.Ok? <==> out.Ok?
    ensures r.Fail? ==> r.error == out.error
    ensures r.Ok? ==> r.value == TrimSpace(out.value.text)
  {
    match out
    case Fail(e) => Fail(e)
    case Ok(o) => Ok(TrimSpace(o.text))
  }

  /** The result of showing a work item: errors pass through, and output
      that does not decode yields no item rather than an error. */
  function ShownOf(out: Result<Output>): (r: Result<Shown>)
    ensures r.Ok? <==> out.Ok?
    ensures r.Fail? ==> r.error == out.error
    ensures r.Ok? ==> r.value.raw == out.value && r.value.item == Unmarshal(out.value, DecodeWorkItem)
  {
    match out
    case Fail(e) => Fail(e)
    case Ok(o) => Ok(Shown(o, Unmarshal(o, DecodeWorkItem)))
  }
}
