/** The `workon` command (cmd/workon.go): look up the signed-in user, then
    assign the item to them and set it Active in one update. */
module Workon {
  import opened Errors
  import opened Wi
  import opened Az
  import opened Render
  import opened Forward

  /** The two fields the update carries. */
  function WorkFields(me: string): (f: map<string, string>)
    ensures f.Keys == {AssigneeKey, StateKey}
    ensures f[AssigneeKey] == me && f[StateKey] == "Active"
  {
    map[AssigneeKey := me, StateKey := "Active"]
  }

  /** The item to work on: the positional argument, else the picker's
      choice, its error included. */
  function Target(args: seq<string>, picked: Result<string>): (r: Result<string>)
    requires |args| <= 1
    ensures |args| == 1 ==> r == Ok(args[0])
    ensures |args| == 0 ==> r == picked
  {
    if |args| == 1 then Ok(args[0]) else picked
  }

  /** The lookup comes first: its failure is returned wrapped as "get
      current user" and nothing else is called. Otherwise exactly one update
      follows, carrying the user's name and the Active state, whose error is
      returned unchanged and whose output is printed. */
  ghost predicate WorkedOn(c: Client, id: string, trace: seq<seq<string>>, order: seq<string>, r: Result<Printed>)
    reads c`mode, c`confirm, c`exec
  {
    var me := TrimmedText(c.Outcome(SignedInUserArgs("userPrincipalName")));
    && |trace| >= 1 && trace[0] == SignedInUserArgs("userPrincipalName")
    && (me.Fail? ==> r == Fail(Wrapped("get current user", me.error)) && |trace| == 1)
    && (me.Ok? ==>
          IsKeyOrder(order, WorkFields(me.value)) &&
          var upd := UpdateArgs(id, WorkFields(me.value), order);
          trace == [SignedInUserArgs("userPrincipalName"), upd] && Updated(c, upd, "Working On", r))
  }

  method WorkOn(c: Client, id: string)
    returns (r: Result<Printed>, ghost trace: seq<seq<string>>, ghost order: seq<string>)
    modifies c`attempts, c`echoed, c`calls
    ensures c.Ran(old(c.attempts), old(c.echoed), old(c.calls), trace)
    ensures WorkedOn(c, id, trace, order, r)
  {
    ghost var a0, e0, c0 := c.attempts, c.echoed, c.calls;
    var me := c.CurrentUserUPN();
    if me.Fail? {
      WorkedOnWithoutUser(c, id, me.error);
      return Fail(Wrapped("get current user", me.error)), [SignedInUserArgs("userPrincipalName")], [];
    }
    ghost var a1, e1, c1 := c.attempts, c.echoed, c.calls;
    r, order := Assign(c, id, me.value);
    ghost var upd := UpdateArgs(id, WorkFields(me.value), order);
    c.Chain(a0, e0, c0, [SignedInUserArgs("userPrincipalName")], a1, e1, c1, [upd], c.attempts, c.echoed, c.calls);
    trace := [SignedInUserArgs("userPrincipalName")] + [upd];
    WorkedOnAfterUpdate(c, id, me.value, order, r);
  }

  lemma WorkedOnWithoutUser(c: Client, id: string, e: Error)
    requires TrimmedText(c.Outcome(SignedInUserArgs("userPrincipalName"))) == Fail(e)
    ensures WorkedOn(c, id, [SignedInUserArgs("userPrincipalName")], [], Fail(Wrapped("get current user", e)))
  {
  }

  lemma WorkedOnAfterUpdate(c: Client, id: string, me: string, order: seq<string>, r: Result<Printed>)
    requires TrimmedText(c.Outcome(SignedInUserArgs("userPrincipalName"))) == Ok(me)
    requires IsKeyOrder(order, WorkFields(me))
    requires Updated(c, UpdateArgs(id, WorkFields(me), order), "Working On", r)
    ensures WorkedOn(c, id, [SignedInUserArgs("userPrincipalName")] + [UpdateArgs(id, WorkFields(me), order)], order, r)
  {
  }

  /** The update assigning the item to `me` and setting it Active, and its
      printed result. */
  method Assign(c: Client, id: string, me: string) returns (r: Result<Printed>, ghost order: seq<string>)
    modifies c`attempts, c`echoed, c`calls
    ensures IsKeyOrder(order, WorkFields(me))
    ensures c.Ran(old(c.attempts), old(c.echoed), old(c.calls), [UpdateArgs(id, WorkFields(me), order)])
    ensures Updated(c, UpdateArgs(id, WorkFields(me), order), "Working On", r)
  {
    var raw;
    raw, order := c.UpdateWorkItemFields(id, map[AssigneeKey := me, StateKey := "Active"]);
    if raw.Fail? {
      return Fail(raw.error), order;
    }
    var p := Display("Working On", raw.value);
    r := Ok(p);
  }

  /** `workon [id]`: a picker error is returned and nothing is called. */
  method WorkonCmd(c: Client, args: seq<string>, picked: Result<string>)
    returns (r: Result<Printed>, ghost trace: seq<seq<string>>, ghost order: seq<string>)
    requires |args| <= 1
    modifies c`attempts, c`echoed, c`calls
    ensures c.Ran(old(c.attempts), old(c.echoed), old(c.calls), trace)
    ensures Target(args, picked).Fail? ==> r == Fail(Target(args, picked).error) && trace == []
    ensures Target(args, picked).Ok? ==> WorkedOn(c, Target(args, picked).value, trace, order, r)
  {
    var id: string;
    if |args| == 1 {
      id := args[0];
    } else {
      if picked.Fail? {
        c.Idle(c.attempts, c.echoed, c.calls);
        return Fail(picked.error), [], [];
      }
      id := picked.value;
    }
    r, trace, order := WorkOn(c, id);
  }

  /** The update's argv is one of exactly two: the two `key=value` tokens
      in either order, each naming one of the two fields. */
  lemma WorkUpdateArgs(id: string, me: string, order: seq<string>)
    requires IsKeyOrder(order, WorkFields(me))
    ensures var a := ["boards", "work-item", "update", "--id", id, "--fields"];
      var assign := AssigneeKey + "=" + me;
      var active := StateKey + "=" + "Active";
      || UpdateArgs(id, WorkFields(me), order) == a + [assign, active] + ["-o", "json"]
      || UpdateArgs(id, WorkFields(me), order) == a + [active, assign] + ["-o", "json"]
  {
    TwoKeys(me, order);
  }

  /** A key order of the two fields lists both, once each. */
  lemma TwoKeys(me: string, order: seq<string>)
    requires IsKeyOrder(order, WorkFields(me))
    ensures order == [AssigneeKey, StateKey] || order == [StateKey, AssigneeKey]
  {
    var f := WorkFields(me);
    DistinctSize(order);
    assert (set k | k in order) == f.Keys;
    assert |f.Keys| == 2 by {
      assert AssigneeKey != StateKey by { assert AssigneeKey[7] != StateKey[7]; }
    }
    assert order[0] in f && order[1] in f;
  }
}
