/** The repository wrappers (internal/az/repos.go): each is one `runAz`
    call followed by a typed decode of its output. */
module Repos {
  import opened Errors
  import opened Json
  import opened Az

  function ListArgs(): seq<string>
  {
    ["repos", "list", "-o", "json"]
  }

  function CreateArgs(name: string): seq<string>
  {
    ["repos", "create", "--name", name, "-o", "json"]
  }

  /** `repos delete --repository <nameOrID>`, with `--yes` appended exactly
      when `assumeYes`. */
  function DeleteArgs(nameOrId: string, assumeYes: bool): (args: seq<string>)
    ensures |args| == if assumeYes then 5 else 4
    ensures args[..4] == ["repos", "delete", "--repository", nameOrId]
    ensures assumeYes ==> args[4] == "--yes"
  {
    if assumeYes then ["repos", "delete", "--repository", nameOrId, "--yes"]
    else ["repos", "delete", "--repository", nameOrId]
  }

  /** `ListRepos`'s result: executor errors pass through, and output that
      does not decode as a repository list is an error, not an empty list. */
  function ReposOf(out: Result<Output>): (r: Result<seq<Repo>>)
    ensures out.Fail? ==> r == Fail(out.error)
    ensures out.Ok? ==> (r.Ok? <==> Unmarshal(out.value, DecodeRepos).Some?)
    ensures out.Ok? && r.Ok? ==> Unmarshal(out.value, DecodeRepos) == Some(r.value)
    ensures out.Ok? && r.Fail? ==> r.error == DecodeFailed
  {
    match out
    case Fail(e) => Fail(e)
    case Ok(o) =>
      (match Unmarshal(o, DecodeRepos)
       case None => Fail(DecodeFailed)
       case Some(repos) => Ok(repos))
  }

  /** `CreateRepo`'s result: as for listing, and a decoded repository with
      an empty name is the error "unexpected create output". */
  function CreatedOf(out: Result<Output>): (r: Result<Repo>)
    ensures out.Fail? ==> r == Fail(out.error)
    ensures out.Ok? && Unmarshal(out.value, DecodeRepo).None? ==> r == Fail(DecodeFailed)
    ensures out.Ok? && Unmarshal(out.value, DecodeRepo).Some? && Unmarshal(out.value, DecodeRepo).value.name == "" ==>
      r == Fail(UnexpectedCreateOutput)
    ensures r.Ok? ==> r.value.name != "" && out.Ok? && Unmarshal(out.value, DecodeRepo) == Some(r.value)
  {
    match out
    case Fail(e) => Fail(e)
    case Ok(o) =>
      (match Unmarshal(o, DecodeRepo)
       case None => Fail(DecodeFailed)
       case Some(repo) => if repo.name == "" then Fail(UnexpectedCreateOutput) else Ok(repo))
  }

  method ListRepos(c: Client) returns (r: Result<seq<Repo>>)
    modifies c`attempts, c`echoed, c`calls
    ensures c.Ran(old(c.attempts), old(c.echoed), old(c.calls), [ListArgs()])
    ensures r == ReposOf(c.Outcome(ListArgs()))
  {
    var out := c.RunAz(ListArgs());
    if out.Fail? {
      return Fail(out.error);
    }
    var repos := Unmarshal(out.value, DecodeRepos);
    if repos.None? {
      return Fail(DecodeFailed);
    }
    return Ok(repos.value);
  }

  method CreateRepo(c: Client, name: string) returns (r: Result<Repo>)
    modifies c`attempts, c`echoed, c`calls
    ensures c.Ran(old(c.attempts), old(c.echoed), old(c.calls), [CreateArgs(name)])
    ensures r == CreatedOf(c.Outcome(CreateArgs(name)))
  {
    var out := c.RunAz(CreateArgs(name));
    if out.Fail? {
      return Fail(out.error);
    }
    var repo := Unmarshal(out.value, DecodeRepo);
    if repo.None? {
      return Fail(DecodeFailed);
    }
    if repo.value.name == "" {
      return Fail(UnexpectedCreateOutput);
    }
    return Ok(repo.value);
  }

  /** `DeleteRepo`: the executor's error, if any. */
  method DeleteRepo(c: Client, nameOrId: string, assumeYes: bool) returns (err: Option<Error>)
    modifies c`attempts, c`echoed, c`calls
    ensures c.Ran(old(c.attempts), old(c.echoed), old(c.calls), [DeleteArgs(nameOrId, assumeYes)])
    ensures err == if c.Outcome(DeleteArgs(nameOrId, assumeYes)).Fail? then Some(c.Outcome(DeleteArgs(nameOrId, assumeYes)).error) else None
  {
    var args := ["repos", "delete", "--repository", nameOrId];
    if assumeYes {
      args := args + ["--yes"];
    }
    assert args == DeleteArgs(nameOrId, assumeYes);
    var out := c.RunAz(args);
    if out.Fail? {
      return Some(out.error);
    }
    return None;
  }

  /** Repository creation and deletion are not among the commands the
      `Mutations` policy confirms: they run without a prompt. */
  lemma MutationsPassRepos(name: string, assumeYes: bool)
    ensures !NeedsConfirm(Mutations, ListArgs())
    ensures !NeedsConfirm(Mutations, CreateArgs(name))
    ensures !NeedsConfirm(Mutations, DeleteArgs(name, assumeYes))
  {
    assert "repos" != "rest";
    assert "repos" != "boards";
    assert "list" != "work-item" && "-o" != "boards" && "json" != "work-item";
    assert WorkItemFrom(ListArgs(), 0).None?;
    CreateUngated(name);
    DeleteUngated(name, assumeYes);
  }

  lemma CreateUngated(name: string)
    ensures WorkItemFrom(CreateArgs(name), 0).None?
  {
    var args := CreateArgs(name);
    assert "create" != "work-item" && "--name" != "boards" && "-o" != "work-item";
    assert !(args[0] == "boards");
    assert !(args[2] == "boards");
    assert !(args[4] == "work-item");
  }

  lemma DeleteUngated(name: string, assumeYes: bool)
    ensures WorkItemFrom(DeleteArgs(name, assumeYes), 0).None?
  {
    var args := DeleteArgs(name, assumeYes);
    assert "delete" != "work-item" && "--repository" != "boards" && "--yes" != "work-item";
    assert !(args[0] == "boards");
    assert !(args[2] == "boards");
    assert assumeYes ==> !(args[4] == "work-item");
  }

  /** A repository's JSON as `az repos list` prints it; `size` is omitted
      when zero. */
  function RepoJson(r: Repo): Json
  {
    var m := map["id" := JStr(r.id), "name" := JStr(r.name), "sshUrl" := JStr(r.sshUrl),
                 "remoteUrl" := JStr(r.remoteUrl), "webUrl" := JStr(r.webUrl)];
    JObj(if r.size == 0 then m else m["size" := JNum(r.size)])
  }

  /** Decoding a repository's JSON gives the repository back. */
  lemma RepoRoundTrip(r: Repo)
    ensures DecodeRepo(RepoJson(r)) == Some(r)
  {
  }
}
