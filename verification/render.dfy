/** Markdown for one work item and the table helpers shared by the listing
    commands (cmd/render.go, and `assigneeDisplay` from cmd/list.go).
    Terminal rendering of the markdown is not part of this model: every
    renderer stops at the markdown text. */
module Render {
  import opened Errors
  import opened Strs
  import opened Json
  import opened Wi

  /** `escapePipes`: every `|` becomes `\|`. */
  function EscapePipes(s: string): (r: string)
    ensures |r| >= |s|
  {
    if s == [] then []
    else if s[0] == '|' then ['\\', '|'] + EscapePipes(s[1..])
    else [s[0]] + EscapePipes(s[1..])
  }

  /** Reads `\|` as `|` and copies everything else. */
  function UnescapePipes(s: string): (r: string)
    decreases |s|
  {
    if s == [] then []
    else if |s| >= 2 && s[0] == '\\' && s[1] == '|' then ['|'] + UnescapePipes(s[2..])
    else [s[0]] + UnescapePipes(s[1..])
  }

  /** Escaping loses nothing: unescaping gives the original back. */
  lemma {:induction false} EscapePipesRoundTrip(s: string)
    ensures UnescapePipes(EscapePipes(s)) == s
  {
    if s != [] {
      EscapePipesRoundTrip(s[1..]);
      var e := EscapePipes(s[1..]);
      EscapeStart(s[1..]);
      if s[0] == '|' {
        assert (['\\', '|'] + e)[2..] == e;
      } else {
        assert ([s[0]] + e)[1..] == e;
      }
      assert [s[0]] + s[1..] == s;
    }
  }

  /** An escaped string never starts with a bare `|`. */
  lemma EscapeStart(s: string)
    ensures EscapePipes(s) == [] || EscapePipes(s)[0] != '|'
  {
  }

  /** Every `|` of the escaped text is preceded by a backslash. */
  lemma {:induction false} EscapedPipesGuarded(s: string)
    ensures var e := EscapePipes(s); forall i :: 0 <= i < |e| && e[i] == '|' ==> i > 0 && e[i - 1] == '\\'
  {
    if s != [] {
      EscapedPipesGuarded(s[1..]);
      EscapeStart(s[1..]);
    }
  }

  /** `assigneeDisplay`: the assignee as a plain string, else the
      `displayName` string of an identity object, else "". */
  function AssigneeDisplay(fields: Fields): (r: string)
    ensures FieldString(fields, "System.AssignedTo") != "" ==> r == FieldString(fields, "System.AssignedTo")
    ensures r != FieldString(fields, "System.AssignedTo") ==>
      "System.AssignedTo" in fields && fields["System.AssignedTo"].JObj? &&
      FieldString(fields["System.AssignedTo"].members, "displayName") == r
  {
    var s := FieldString(fields, "System.AssignedTo");
    if s != "" then s
    else if "System.AssignedTo" in fields && fields["System.AssignedTo"].JObj? then
      FieldString(fields["System.AssignedTo"].members, "displayName")
    else ""
  }

  const NoTags := "(none)"

  /** What `formatTags` prints for a `;`-separated tag list. */
  function TagsText(tags: string): string
  {
    if TrimSpace(tags) == "" then NoTags
    else
      var kept := NonBlank(Split(tags, ';'));
      if kept == [] then NoTags else Join(kept, ", ")
  }

  /** The pieces of an all-white-space string are all white space. */
  lemma {:induction false} SplitAllSpace(s: string, sep: char)
    requires AllSpace(s)
    ensures forall k :: 0 <= k < |Split(s, sep)| ==> AllSpace(Split(s, sep)[k])
    decreases |s|
  {
    var i := IndexOf(s, sep);
    if i < |s| {
      SplitAllSpace(s[i + 1..], sep);
      assert Split(s, sep) == [s[..i]] + Split(s[i + 1..], sep);
    }
  }

  /** Blank entries are all dropped. */
  lemma {:induction false} NonBlankAllBlank(parts: seq<string>)
    requires forall k :: 0 <= k < |parts| ==> AllSpace(parts[k])
    ensures NonBlank(parts) == []
  {
    if |parts| > 0 {
      NonBlankAllBlank(parts[..|parts| - 1]);
      TrimSpaceSpec(parts[|parts| - 1]);
    }
  }

  /** The early blank check agrees with the loop: the text is "(none)"
      whenever no non-blank tag remains, and the kept tags joined with ", "
      otherwise. */
  lemma TagsTextSpec(tags: string)
    ensures NonBlank(Split(tags, ';')) == [] ==> TagsText(tags) == NoTags
    ensures NonBlank(Split(tags, ';')) != [] ==> TagsText(tags) == Join(NonBlank(Split(tags, ';')), ", ")
  {
    if TrimSpace(tags) == "" {
      TrimSpaceSpec(tags);
      SplitAllSpace(tags, ';');
      NonBlankAllBlank(Split(tags, ';'));
    }
  }

  /** `formatTags`. */
  method FormatTags(tags: string) returns (r: string)
    ensures r == TagsText(tags)
  {
    if TrimSpace(tags) == "" {
      return NoTags;
    }
    var kept := SplitTrimmed(tags, ';');
    if |kept| == 0 {
      return NoTags;
    }
    return Join(kept, ", ");
  }

  /** Clean tags joined with `;` come out joined with `, `. */
  lemma TagsTextClean(ts: seq<string>)
    requires |ts| >= 1
    requires forall k :: 0 <= k < |ts| ==> Trimmed(ts[k]) && ';' !in ts[k]
    ensures TagsText(Join(ts, ";")) == Join(ts, ", ")
  {
    SplitJoin(ts, ';');
    NonBlankClean(ts);
    JoinedNotBlank(ts);
  }

  lemma JoinedNotBlank(ts: seq<string>)
    requires |ts| >= 1
    requires forall k :: 0 <= k < |ts| ==> Trimmed(ts[k]) && ';' !in ts[k]
    ensures TrimSpace(Join(ts, ";")) != ""
  {
    var j := Join(ts, ";");
    assert Trimmed(ts[0]);
    TrimSpaceSpec(ts[0]);
    var i :| 0 <= i < |ts[0]| && !IsSpace(ts[0][i]);
    JoinStartsWith(ts, ";");
    assert j[i] == ts[0][i];
    TrimSpaceSpec(j);
  }

  lemma JoinStartsWith(ts: seq<string>, sep: string)
    requires |ts| >= 1
    ensures |Join(ts, sep)| >= |ts[0]| && Join(ts, sep)[..|ts[0]|] == ts[0]
  {
    if |ts| > 1 {
      assert Join(ts, sep) == ts[0] + sep + Join(ts[1..], sep);
    }
  }

  /** The detail lines of `renderWorkItem`, given the Kanban column value
      found on the item. */
  function DetailLines(wi: WorkItem, kanban: string, tags: string): (lines: seq<string>)
  {
    var f := wi.fields;
    var typ := FieldString(f, "System.WorkItemType");
    var severity := if typ == "Bug" then FieldString(f, "Microsoft.VSTS.Common.Severity") else "";
    var head := [
      "- ID: " + IntToString(wi.id),
      "- Type: " + typ,
      "- State: " + FieldString(f, "System.State"),
      "- Title: " + EscapePipes(FieldString(f, "System.Title")),
      "- Assigned To: " + AssigneeDisplay(f)];
    var tail := ["- Kanban Column: " + kanban, "- Tags: " + tags, "- URL: " + wi.url];
    if typ == "Bug" && TrimSpace(severity) != "" then head + ["- Severity: " + severity] + tail
    else head + tail
  }

  /** Eight lines, or nine with the severity line, which appears exactly for
      a Bug with a non-blank severity; the URL line is always last. */
  lemma DetailLinesShape(wi: WorkItem, kanban: string, tags: string)
    ensures var lines := DetailLines(wi, kanban, tags);
      var typ := FieldString(wi.fields, "System.WorkItemType");
      && (|lines| == 9 <==> typ == "Bug" && TrimSpace(FieldString(wi.fields, "Microsoft.VSTS.Common.Severity")) != "")
      && |lines| in {8, 9}
      && lines[|lines| - 1] == "- URL: " + wi.url
      && lines[|lines| - 2] == "- Tags: " + tags
      && lines[|lines| - 3] == "- Kanban Column: " + kanban
  {
  }

  /** `# <title>`, a blank line, the lines and a final newline. */
  function Document(title: string, lines: seq<string>): string
  {
    "# " + title + "\n\n" + Join(lines, "\n") + "\n"
  }

  /** `v` is the Kanban column value `renderWorkItem` may show: the value
      of some Kanban field holding a string, or "" when there is none. */
  ghost predicate KanbanValue(fields: Fields, v: string)
  {
    if HasKanbanField(fields) then exists n :: KanbanField(fields, n, v) else v == ""
  }

  /** `md` is the markdown `renderWorkItem` builds for `wi`. */
  ghost predicate Renders(title: string, wi: WorkItem, md: string)
  {
    exists v :: KanbanValue(wi.fields, v) &&
      md == Document(title, DetailLines(wi, v, TagsText(FieldString(wi.fields, "System.Tags"))))
  }

  /** `renderWorkItem`: an absent item is an error; otherwise the markdown
      document of the item. */
  method RenderWorkItem(title: string, wi: Option<WorkItem>) returns (r: Result<string>)
    ensures wi.None? ==> r == Fail(NoWorkItemToRender)
    ensures wi.Some? ==> r.Ok? && Renders(title, wi.value, r.value)
  {
    if wi.None? {
      return Fail(NoWorkItemToRender);
    }
    var item := wi.value;
    var tags := FormatTags(FieldString(item.fields, "System.Tags"));
    var _, kanban := FindKanbanColumn(item.fields);
    assert KanbanValue(item.fields, kanban);
    r := Ok(Document(title, DetailLines(item, kanban, tags)));
  }

  /** What a command prints for an update's output: the rendered item when
      the output decodes as a work item, the raw output otherwise. */
  datatype Printed = Rendered(md: string) | RawJson(out: Output)

  ghost predicate PrintedAs(title: string, raw: Output, p: Printed)
  {
    match Unmarshal(raw, DecodeWorkItem)
    case Some(wi) => p.Rendered? && Renders(title, wi, p.md)
    case None => p == RawJson(raw)
  }

  /** The tail shared by the update commands: decode the output as a work
      item and render it, or fall back to printing the raw output. */
  method Display(title: string, raw: Output) returns (p: Printed)
    ensures PrintedAs(title, raw, p)
  {
    var wi := Unmarshal(raw, DecodeWorkItem);
    if wi.None? {
      return RawJson(raw);
    }
    var md := RenderWorkItem(title, wi);
    return Rendered(md.value);
  }
}
