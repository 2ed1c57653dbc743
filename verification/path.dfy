/** Tilde expansion (internal/util/path.go). The current user's home
    directory, the user database and `filepath.Join` are parameters: `home`
    is what `os.UserHomeDir` returns, `lookup` maps a user name to that
    user's home directory or an error, and `join` joins two path parts. */
module Path {
  import opened Errors
  import opened Strs

  /** The expanded path and the error, as the Go function returns both. */
  datatype Expansion = Expansion(path: string, err: Option<Error>)

  /** `ExpandTilde`. */
  function ExpandTilde(p: string, home: Result<string>, lookup: string -> Result<string>,
                       join: (string, string) -> string): (r: Expansion)
    ensures r.err.Some? ==> r.path == p
    ensures (|p| == 0 || p[0] != '~') ==> r == Expansion(p, None)
  {
    if TrimSpace(p) == "" || p[0] != '~' then Expansion(p, None)
    else if p == "~" then
      (match home
       case Fail(e) => Expansion(p, Some(e))
       case Ok(h) => Expansion(h, None))
    else if HasPrefix(p, "~/") then
      (match home
       case Fail(e) => Expansion(p, Some(e))
       case Ok(h) => Expansion(join(h, p[2..]), None))
    else
      ExpandUser(p, lookup, join)
  }

  /** The user name and the tail of `~user[/tail]`'s text after the `~`:
      everything up to the first slash, and everything after it. */
  function SplitUser(rest: string): (r: (string, string))
    ensures '/' !in r.0
  {
    var slash := IndexOf(rest, '/');
    assert forall j :: 0 <= j < slash ==> rest[..slash][j] == rest[j];
    (rest[..slash], if slash == |rest| then "" else rest[slash + 1..])
  }

  /** The `~user[/tail]` case: the original path with the error when the
      user is unknown. */
  function ExpandUser(p: string, lookup: string -> Result<string>, join: (string, string) -> string): (r: Expansion)
    requires |p| > 0
    ensures r.err.Some? ==> r.path == p
  {
    var (uname, tail) := SplitUser(p[1..]);
    match lookup(uname)
    case Fail(e) => Expansion(p, Some(e))
    case Ok(h) => if tail == "" then Expansion(h, None) else Expansion(join(h, tail), None)
  }

  /** Splitting recovers a slash-free user name and the tail after it. */
  lemma SplitUserJoin(user: string, tail: string)
    requires '/' !in user
    ensures SplitUser(user) == (user, "")
    ensures SplitUser(user + "/" + tail) == (user, tail)
  {
    var rest := user + "/" + tail;
    assert rest[|user|] == '/';
    assert forall j :: 0 <= j < |user| ==> rest[j] == user[j];
    assert IndexOf(rest, '/') == |user|;
    assert rest[..|user|] == user;
    assert rest[|user| + 1..] == tail;
    assert IndexOf(user, '/') == |user|;
    assert user[..|user|] == user;
  }

  /** A path that starts with `~` followed by neither nothing nor a slash
      names a user. */
  lemma NamedCase(p: string, home: Result<string>, lookup: string -> Result<string>, join: (string, string) -> string)
    requires |p| >= 2 && p[0] == '~' && p[1] != '/'
    ensures ExpandTilde(p, home, lookup, join) == ExpandUser(p, lookup, join)
  {
    TildeNotBlank(p);
    assert p != "~";
    assert !HasPrefix(p, "~/") by { assert p[..2][1] == p[1]; }
  }

  /** A path starting with `~` is never blank. */
  lemma TildeNotBlank(p: string)
    requires |p| > 0 && p[0] == '~'
    ensures TrimSpace(p) != ""
  {
    TrimSpaceSpec(p);
    assert !IsSpace(p[0]);
  }

  /** `~` alone is the home directory, and `~/rest` joins it with `rest`;
      a failing home lookup leaves the path as it was, with the error. */
  lemma CurrentUser(rest: string, home: Result<string>, lookup: string -> Result<string>,
                    join: (string, string) -> string)
    ensures ExpandTilde("~", home, lookup, join) ==
      (if home.Ok? then Expansion(home.value, None) else Expansion("~", Some(home.error)))
    ensures ExpandTilde("~/" + rest, home, lookup, join) ==
      (if home.Ok? then Expansion(join(home.value, rest), None) else Expansion("~/" + rest, Some(home.error)))
  {
    TildeNotBlank("~");
    var p := "~/" + rest;
    TildeNotBlank(p);
    assert HasPrefix(p, "~/");
    assert p[2..] == rest;
  }

  /** `~user/tail` looks up `user` and joins its home with a non-empty
      `tail`; with no tail, or an empty one, the result is that home. */
  lemma NamedUser(user: string, tail: string, home: Result<string>, lookup: string -> Result<string>,
                  join: (string, string) -> string)
    requires user != "" && '/' !in user
    requires lookup(user).Ok?
    ensures ExpandTilde("~" + user, home, lookup, join) == Expansion(lookup(user).value, None)
    ensures ExpandTilde("~" + user + "/" + tail, home, lookup, join) ==
      (if tail == "" then Expansion(lookup(user).value, None) else Expansion(join(lookup(user).value, tail), None))
  {
    SplitUserJoin(user, tail);
    var p1 := "~" + user;
    assert p1[1] == user[0] && p1[1..] == user;
    NamedCase(p1, home, lookup, join);
    var p2 := "~" + user + "/" + tail;
    assert p2[1] == user[0] && p2[1..] == user + "/" + tail;
    NamedCase(p2, home, lookup, join);
  }
}
