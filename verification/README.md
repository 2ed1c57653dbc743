# ab — a verified model of an Azure Boards command line

`ab` is a command-line tool for Azure Boards work items and Azure Repos.
It does its work by running the `az` CLI. It lists, picks, shows, creates
and edits work items. It moves a User Story between Kanban columns and
changes work-item states in batches. It also lists, views, clones, creates
and deletes repositories.

This project models that core in Dafny and proves what the code promises.

- **The executor.** `az` is an abstract executor: a function from an argv
  to a scripted output or error. The client object `Az.Client` holds the
  confirmation mode, silent mode, the executor and the user's answers to
  confirmation prompts. It records every argv it is asked to run, what it
  echoed and what reached the executor. Every command workflow is a method
  over that client. Its contract names the exact sequence of `az` calls
  (the trace) and the command's result, both as functions of the
  executor's answers.
- **The confirmation gate.** `runAz` echoes the command and may ask for
  confirmation; a decline never reaches the executor. This is modelled
  with the positional mutation classifier, the confirmation-mode parser
  and the argv builders.
- **The Kanban column order.** `Board.Columns` is a class whose `order`
  field the CSV and Agile-preset setters replace. The next and previous
  column steps do a first-match scan over it.
- **JSON.** Outputs carry an already-decoded JSON value (`Json.Json`).
  Go's typed unmarshalling is written out over it: a string field, an
  `int` field, a slice of structs, a struct with two slice members. This
  covers the lenient and strict readings of query results: the WIQL id
  extraction, the lenient list reading and the two-stage children query.
- **Documents.** The markdown tables, the `show` document and the
  work-item rendering are modelled as strings. Rendering stops at that
  markdown text.
- **Interactive forms and pickers.** They are parameters: a function from
  what the form shows to what the user answers. A picker's outcome is the
  index or id chosen, or an error.

One Dafny module stands for each source file:

- `Errors`, `Strs`, `Json`: shared foundations, including Go's `strings`
  helpers and the decoded-JSON reading rules.
- `Board`: internal/board/order.go.
- `Az`: internal/az/az.go. `Repos`: internal/az/repos.go.
- `Wi`: internal/util/wi.go. `Wiql`: internal/util/wiql.go.
  `Path`: internal/util/path.go. `Width`: internal/term/width.go.
- `List`, `ListChildren`, `ListRender`: cmd/list.go.
- `Render`: cmd/render.go. `Picker`: cmd/picker.go.
- `Forward`, `Backward`, `State`, `Workon`: cmd/forward.go,
  cmd/backward.go, cmd/state.go, cmd/workon.go.
- `Edit` (form values and change set) and `EditFlow` (the calls):
  cmd/edit.go.
- `Create` (what the create commands share), `CreateBug`, `CreateTask`,
  `CreateStory`: cmd/create_*.go.
- `Show`: cmd/show.go. `RepoCmd`: cmd/repo.go. `Root`: cmd/root.go.

## Model

| member | source | states |
|---|---|---|
| Strs.TrimSpaceSpec | internal/board/order.go:38 | a trimmed string neither starts nor ends with white space, and it is empty exactly when the input was all white space |
| Strs.TrimSpaceIdempotent | internal/az/az.go:60 | trimming twice is trimming once |
| Strs.ToLower | internal/az/az.go:60 | lower-casing keeps the length and maps every character on its own |
| Strs.Split | internal/board/order.go:35 | there is at least one piece and no piece contains the separator |
| Strs.JoinSplit | internal/board/order.go:35 | joining the pieces with the separator gives the input back |
| Strs.SplitJoin | internal/board/order.go:35 | splitting pieces joined by a separator they lack gives the pieces back |
| Strs.NonBlankWellFormed | internal/board/order.go:37-42 | the kept entries are non-blank, trimmed and free of the separator, and there are no more of them than parts |
| Strs.NonBlankClean | internal/board/order.go:37-42 | entries that are already trimmed and non-blank are all kept, in order |
| Strs.SplitTrimmed | internal/board/order.go:35-42 | the split-trim-keep loop yields the trimmed non-blank pieces in order |
| Strs.NatToString | cmd/repo.go:343 | the decimal rendering is a non-empty run of digits |
| Strs.DigitsValueNat | internal/term/width.go:35 | reading back the digits of a number gives the number |
| Strs.AtoiIntToString | internal/term/width.go:35 | `strconv.Atoi` reads back what `%d` prints, for every 64-bit value |
| Json.AllOf | internal/az/az.go:193 | a slice decodes exactly when every element does, element by element and in order |
| Strs.IndexOf | internal/board/order.go:52-53 | the scan stops at the first position holding the column (or character), or runs off the end when none does |
| Board.NextSpec | internal/board/order.go:51-61 | an absent column is "unknown current column"; the step succeeds exactly when the column first occurs before the last position, and yields the column after that first occurrence; in a repeat-free order the last column is "already in last column" |
| Board.PrevSpec | internal/board/order.go:64-74 | an absent column is "unknown current column"; the step succeeds exactly when the first occurrence is not at position 0, and yields the column before it; the first column is "already in first column" |
| Board.PrevOfNext | internal/board/order.go:51-74 | in a repeat-free order, stepping back after a successful step forward returns to the starting column |
| Board.NextOfPrev | internal/board/order.go:51-74 | in a repeat-free order, stepping forward after a successful step back returns to the starting column |
| Board.ThreeColumns | internal/board/order.go:51-74 | on three distinct columns the steps move by one, fail off either end, and fail on an unknown column |
| Board.ParseColumnsWellFormed | internal/board/order.go:35-42 | every column parsed from the list is non-blank, trimmed and comma-free, and there are no more of them than comma-separated parts |
| Board.Columns.constructor | internal/board/order.go:10-25 | the initial order is the seven-stage progression unless `AB_COLUMNS` is non-blank and names at least one column |
| Board.Columns.SetDefaultAgileColumns | internal/board/order.go:28-30 | the order becomes exactly New, Active, Resolved, Closed |
| Board.Columns.SetColumnOrderFromCSV | internal/board/order.go:34-48 | with no non-blank entry the order is unchanged and the error is returned; otherwise the order is the trimmed non-blank entries in order |
| Board.Columns.NextColumn | internal/board/order.go:51-61 | the first-match scan returns what the forward step specification gives |
| Board.Columns.PrevColumn | internal/board/order.go:64-74 | the first-match scan returns what the backward step specification gives |
| Wi.FieldString | internal/util/wi.go:6-16 | a string value is returned exactly; a missing key or a non-string value gives "" |
| Wi.FieldStringStore | internal/util/wi.go:6-16 | a string stored under a key reads back unchanged, and reads of other keys are unaffected |
| Wi.FindKanbanColumn | internal/util/wi.go:20-32 | when some `WEF_…Kanban.Column` key holds a string, the pair returned is such a key and its value; otherwise both are empty; the name is non-empty exactly when such a field exists |
| Width.DetectWidth | internal/term/width.go:10-21 | the width is always positive |
| Width.DetectWidthFirstPositive | internal/term/width.go:10-21 | the width is the first positive of native, stty and COLUMNS, in that order, else 80 |
| Width.ColumnsEnv | internal/term/width.go:33-40 | a positive result is the integer the value parses as; 0 means unset, unparsable or not positive |
| Width.ColumnsEnvRoundTrip | internal/term/width.go:33-40 | a 64-bit integer written in decimal reads back as itself when positive and as 0 otherwise |
| Path.ExpandTilde | internal/util/path.go:14-52 | blank input, or input not starting with `~`, comes back unchanged without error; whenever there is an error the original path comes back with it |
| Path.SplitUser | internal/util/path.go:34-43 | the user name is the text after `~` up to the first slash and contains none |
| Path.ExpandUser | internal/util/path.go:44-51 | a failed user lookup returns the original path with the error |
| Path.SplitUserJoin | internal/util/path.go:34-43 | splitting `user` and `user/tail` recovers the user name and the tail |
| Path.NamedCase | internal/util/path.go:19-34 | a path of `~` followed by something other than a slash goes to the named-user case |
| Path.TildeNotBlank | internal/util/path.go:15 | a path starting with `~` is never blank, so the blank check does not catch it |
| Path.CurrentUser | internal/util/path.go:19-32 | `~` is the home directory and `~/rest` joins it with rest; a failed home lookup gives the original path and the error |
| Path.NamedUser | internal/util/path.go:34-51 | `~user` is that user's home; `~user/tail` joins the home with a non-empty tail and is the home itself for an empty tail |
| Wiql.Ids | internal/util/wiql.go:21-25 | one id per record, in order |
| Wiql.CollectIds | internal/util/wiql.go:21-25 | the append loop yields the records' ids in order |
| Wiql.ParseWIQLIDs | internal/util/wiql.go:13-52 | the three decodes tried in sequence give the outcome the shape order specifies |
| Wiql.WiqlIdsOutcome | internal/util/wiql.go:13-52 | a success carries at least one id; the call fails exactly when no shape yields a non-empty list, and then with "unrecognized WIQL JSON shape" |
| Wiql.ArrayShapeRoundTrip | internal/util/wiql.go:28-37 | a non-empty bare array of id objects reads back as its ids |
| Wiql.ArrayWins | internal/util/wiql.go:28-37 | a decodable non-empty bare array gives its ids in order |
| Wiql.WorkItemsShapeRoundTrip | internal/util/wiql.go:14-26 | a non-empty `workItems` list reads back as its ids |
| Wiql.MemberWins | internal/util/wiql.go:14-26 | an object with a decodable non-empty `workItems` list gives its ids in order |
| Wiql.ValueShapeRoundTrip | internal/util/wiql.go:39-50 | a non-empty `value` list reads back as its ids |
| Wiql.ValueWins | internal/util/wiql.go:39-50 | an object with a decodable non-empty `value` list gives its ids in order |
| Wiql.UnrecognizedShapes | internal/util/wiql.go:51 | an object with neither member, and output that is not JSON, give the shape error |
| Az.ParseConfirmMode | internal/az/az.go:59-73 | an error comes with the current mode, and names the word given |
| Az.ParseConfirmModeNormalized | internal/az/az.go:60 | surrounding white space and letter case never change the mode selected or whether the word is accepted |
| Az.NormalizeIdempotent | internal/az/az.go:60 | normalising a word twice is normalising it once |
| Az.ToLowerIdempotent | internal/az/az.go:60 | lower-casing twice is lower-casing once |
| Az.ParseConfirmModeSelects | internal/az/az.go:59-73 | a word whose trimmed lower-case form is in the "always", "mutations" or "never" synonym list selects that mode with no error; a blank word keeps the current mode with no error; any other word keeps the current mode and gives an invalid-mode error naming it |
| Az.ConfirmWordsSelect | internal/az/az.go:62-67 | every synonym as written in the table ("all", "true", "on", "1", "yes", "y"; "mutation", "writes", "write", "updates", "changes"; "none", "false", "off", "0", "no", "n") selects its mode, whatever the current mode |
| Az.ParseConfirmModeNames | internal/az/az.go:62-67 | "always", "mutations" and "never" select their modes whatever the current mode |
| Az.CanonicalNamesClassified | internal/az/az.go:62-67 | the three canonical words sit in the three synonym groups |
| Az.MethodFlagFrom | internal/az/az.go:120-125 | the first `--method` followed by a token, scanning from a position, or none |
| Az.WorkItemFrom | internal/az/az.go:130-131 | the first `boards work-item` pair followed by at least one token, scanning from a position, or none |
| Az.ShouldConfirm | internal/az/az.go:108-151 | the two scanning loops compute the classifier: always under Always, never under Never, and under Mutations the `rest` method rule and the first `boards work-item` sub-command rule |
| Az.WorkItemCommand | internal/az/az.go:130-144 | under Mutations, `boards work-item …` is confirmed exactly when its verb is create, update or delete, or it is `relation add/remove/delete` |
| Az.MutationsGateUpdate | internal/az/az.go:130-135 | under Mutations, a fields update and an assignee update are confirmed |
| Az.MutationsGateCreate | internal/az/az.go:130-135 | under Mutations, a create is confirmed |
| Az.MutationsGateDelete | internal/az/az.go:130-135 | under Mutations, a delete is confirmed |
| Az.MutationsGateRelation | internal/az/az.go:136-141 | under Mutations, `relation add` is confirmed |
| Az.MutationsPassShow | internal/az/az.go:143 | under Mutations, `work-item show` is a read |
| Az.MutationsPassReads | internal/az/az.go:119-147 | under Mutations, queries, user look-ups and `rest --method get` go through; `rest` with no method is confirmed |
| Az.FieldArgs | internal/az/az.go:206-208 | one `key=value` token per key, in the order the map is visited |
| Az.FieldTokens | internal/az/az.go:206-208 | the range over the map visits every key once, and yields one token per entry, the `key=value` token of every entry among them |
| Az.SingleFieldUpdate | internal/az/az.go:201-212 | a one-field update is exactly `boards work-item update --id <id> --fields k=v -o json` |
| Az.KeyOrderSingleton | internal/az/az.go:206 | a one-entry map has a single visiting order |
| Az.DistinctSize | internal/az/az.go:206 | a visiting order has as many keys as the map |
| Az.FieldArgsCover | internal/az/az.go:204-209 | the tokens are exactly one `key=value` per map entry |
| Az.Client.constructor | internal/az/az.go:19-47 | the initial mode is Mutations adjusted by a non-blank `AB_CONFIRM`, echo is on, nothing has run |
| Az.Client.SetConfirmMode | internal/az/az.go:50-57 | the mode and the error are what the parser gives; on an error the mode is unchanged |
| Az.Client.SetSilent | internal/az/az.go:25 | the silent flag becomes the argument |
| Az.Client.SetExecutorForTest | internal/az/az.go:28-30 | the executor becomes the argument |
| Az.Client.Outcome | internal/az/az.go:82-93 | a command that passes the gate gets the executor's result; otherwise the result is an error, `ErrCancelled` exactly on a decline |
| Az.Client.Runner | internal/az/az.go:76-94 | the runner gives every command its gated outcome |
| Az.Client.Executed | internal/az/az.go:82-93 | only the commands that pass the gate are added to the executed calls |
| Az.Client.ExecutedAppend | internal/az/az.go:82-93 | the executed calls of two runs in a row are those of the first, then those of the second |
| Az.Client.Chain | internal/az/az.go:76-94 | two stretches of commands run in a row compose into one |
| Az.Client.Idle | internal/az/az.go:76-94 | running nothing changes no log |
| Az.Client.RunAz | internal/az/az.go:76-94 | every command is attempted, echoed iff not silent, and reaches the executor at most once and only when it passes the gate; the result is its gated outcome |
| Az.Client.CurrentUserUPN | internal/az/az.go:156-162 | one `ad signed-in-user show --query userPrincipalName` call; the trimmed output or the error |
| Az.Client.CurrentUserDisplayName | internal/az/az.go:165-171 | one `ad signed-in-user show --query displayName` call; the trimmed output or the error |
| Az.Client.QueryWIQL | internal/az/az.go:174-176 | one `boards query --wiql … -o json` call and its outcome |
| Az.Client.ShowWorkItem | internal/az/az.go:187-198 | one `work-item show` call; output that does not decode comes back with no item and no error |
| Az.Client.UpdateWorkItemFields | internal/az/az.go:201-212 | one update call whose argv is `--id` then, for a non-empty map only, `--fields` and one token per entry, then `-o json` |
| Az.Client.CreateWorkItem | internal/az/az.go:215-225 | one create call with `--type` and `--title` and the same fields rule; the relation argument is ignored |
| Az.Client.AddWorkItemRelation | internal/az/az.go:228-231 | one `relation add --id --relation-type --target-id -o json` call |
| Az.Client.DeleteWorkItem | internal/az/az.go:234-237 | one `work-item delete --id <id> --yes -o json` call |
| Az.Client.UpdateWorkItemAssignee | internal/az/az.go:240-243 | one update call with `--assigned-to` |
| Az.Client.RestGet | internal/az/az.go:294 | one `rest --method get --url` call |
| Az.TrimmedText | internal/az/az.go:157-161 | errors pass through; a success is the trimmed text |
| Az.ShownOf | internal/az/az.go:188-197 | errors pass through; a success keeps the raw output and the decoded item, absent when the output does not decode |
| Repos.DeleteArgs | internal/az/repos.go:50-53 | the argv is `repos delete --repository <nameOrID>`, followed by `--yes` exactly when asked to assume yes |
| Repos.ReposOf | internal/az/repos.go:20-28 | executor errors pass through; output that does not decode as a repository list is an error, and a success is the decoded list |
| Repos.CreatedOf | internal/az/repos.go:33-44 | executor errors pass through; undecodable output is an error; a decoded repository with an empty name is "unexpected create output"; a success has a name |
| Repos.ListRepos | internal/az/repos.go:19-29 | one `repos list -o json` call, and its result as listing reads it |
| Repos.CreateRepo | internal/az/repos.go:32-45 | one `repos create --name <name> -o json` call, and its result as creation reads it |
| Repos.DeleteRepo | internal/az/repos.go:48-56 | one delete call; the error is the executor's error, if any |
| Repos.MutationsPassRepos | internal/az/repos.go:20-50 | under Mutations, listing, creating and deleting repositories go through without a prompt |
| Repos.CreateUngated | internal/az/repos.go:33 | the create argv contains no `boards work-item` pair |
| Repos.DeleteUngated | internal/az/repos.go:50-53 | the delete argv contains no `boards work-item` pair |
| Repos.RepoRoundTrip | internal/az/repos.go:9-16 | a repository's JSON decodes back to the same repository |
| List.ListQueryConditions | cmd/list.go:243-262 | the closed-state condition is present iff closed items are excluded and comes first; the type condition is present iff the trimmed filter is non-empty; there is nothing else |
| List.BaseListWIQLWithText | cmd/list.go:243-262 | the `where` string grown by concatenation is the conditions joined with AND, with no WHERE when there are none, always ending in the ChangedDate order |
| List.WhereText | cmd/list.go:250-259 | growing a `where` string from at most two non-empty conditions gives the text of the conditions joined with AND |
| List.BaseListWIQLText | cmd/list.go:355-374 | the package-wide listing query is the same construction with double-quoted literals and an untrimmed filter test |
| List.QueryItemsByWIQL | cmd/list.go:216-240 | one query; an executor failure is wrapped as "query failed"; otherwise a bare array is returned even when empty, else a non-empty `workItems`, else `value`, else no items, never an error |
| List.QueryItems | cmd/list.go:147-150 | one query with the package-wide listing text, read leniently |
| List.ConcatCalls | cmd/list.go:191-209 | the second query is issued only after the first, so the calls are the first query alone or both in order |
| List.Concatenate | cmd/list.go:191-212 | the first query's error, else the second's, else the first list followed by the second; the second query is not issued when the first fails |
| List.Conditions | cmd/list.go:181-185 | the conditions slice is the closed-state condition when closed items are excluded, then the type condition |
| List.BuildWiql | cmd/list.go:186-190 | the query text grown by `+=` is WHERE and the joined conditions when there are any, then the order |
| List.QueryPOOrdered | cmd/list.go:179-213 | stories and bugs by StackRank, then every other type by ChangedDate, concatenated without interleaving; a failing first query stops the merge |
| List.OrderPlanSpec | cmd/list.go:153-176 | the two-query merge is used exactly for PO order with an empty filter; StackRank order exactly for PO order on User Story or Bug; the closed-state condition exactly when closed items are excluded |
| List.QueryItemsWithOrder | cmd/list.go:153-176 | the calls and result are those of the plan the filter and flags select |
| ListChildren.ItemsDecode | cmd/list.go:141-144 | printed query items decode back to the same items |
| ListChildren.LenientArray | cmd/list.go:221-225 | a bare array is returned as it is, even when empty |
| ListChildren.LenientWorkItems | cmd/list.go:226-236 | a non-empty `workItems` list is returned |
| ListChildren.LenientValue | cmd/list.go:231-236 | without a `workItems` list the `value` list is returned |
| ListChildren.LenientNeverFails | cmd/list.go:238-239 | output that is not JSON, a number and an empty `workItems` list all read as no items, while the strict id reader rejects the empty list |
| ListChildren.Present | cmd/list.go:282-295 | the ids read are no more than the records |
| ListChildren.PresentAll | cmd/list.go:282-295 | when every record has an id, the ids are read one for one in order |
| ListChildren.Collect | cmd/list.go:282-315 | the append loops collect the ids the records yield, in order |
| ListChildren.ParentIds | cmd/list.go:273-317 | the first shape's ids, or the second shape's when the first yields none |
| ListChildren.ChildIdsWorkItems | cmd/list.go:281-296 | a `workItems` list whose records all carry an id gives those ids in order |
| ListChildren.ObjectIds | cmd/list.go:301-307 | `{"id": n}` objects give their ids |
| ListChildren.ChildIdsArray | cmd/list.go:298-317 | a bare array of `{"id": n}` objects gives the ids, zero included |
| ListChildren.Decimal | cmd/list.go:322-325 | one decimal string per id, in order |
| ListChildren.IdStrings | cmd/list.go:322-325 | the append loop writes each id in decimal, in order |
| ListChildren.EmptyChildrenArray | cmd/list.go:336-346 | the empty array `[]` is the error "parse children" as written, and no children as intended |
| ListChildren.ChildrenSpec | cmd/list.go:335-350 | the intended reading agrees with the written one wherever that succeeds, returns the lenient reading, and fails exactly on output that decodes neither as a list nor as the object, with "parse children" |
| ListChildren.ParseChildren | cmd/list.go:335-350 | the second-stage parse returns the intended reading |
| ListChildren.FetchChildren | cmd/list.go:322-350 | one query for the ids; an executor failure is wrapped as "query children failed" |
| ListChildren.QueryItemsByParent | cmd/list.go:265-350 | the id query comes first; its failure is wrapped as "query child ids failed"; with no ids the result is empty and no second query is issued; otherwise exactly one children query follows |
| ListRender.Strong | cmd/list.go:398 | every cell, and only the cells, is wrapped in `**` when the row is bold |
| ListRender.Cells | cmd/list.go:390-401 | a row has five cells with the type, four without; the first is the decimal id and the last the pipe-escaped title |
| ListRender.ConcatAppend | cmd/list.go:390-402 | writing two runs of rows one after the other writes their concatenation |
| ListRender.RowsInOrder | cmd/list.go:390-402 | no items give no rows, one item one row, and the rows of a concatenation are the rows of each part in turn |
| ListRender.DecimalStart | cmd/list.go:400 | a plain row's id cell never starts with `*` |
| ListRender.RowBold | cmd/list.go:397-401 | a row is bold exactly when the item is Active and assigned to the signed-in user, whose name is non-empty |
| ListRender.JoinStartsWith | cmd/list.go:398 | a joined row starts with its first cell |
| ListRender.WriteAll | cmd/list.go:390-402 | the row loop appends each element's text to the buffer, in order |
| ListRender.WriteRows | cmd/list.go:390-402 | the row loop appends the rows of the items in input order |
| ListRender.UserName | cmd/list.go:389 | one display-name lookup; a failure reads as "" and is otherwise ignored |
| ListRender.RenderItems | cmd/list.go:377-403 | no items give the fixed "No work-items found." page without a lookup; otherwise one lookup, then the heading, header and rows |
| ListRender.RenderItemsTypeLess | cmd/list.go:422-448 | as the typed listing, without the type column, under the given heading or "Work Items" |
| ListRender.ColumnState | cmd/list.go:482-485 | the column and state read `col (state)` when the column is known, else the state alone |
| ListRender.Keys | cmd/list.go:501 | one key per element, in order |
| ListRender.KeysPermuted | cmd/list.go:501 | permuting the items permutes their ids |
| ListRender.DescendingUnique | cmd/list.go:501 | two descending sequences of the same numbers are equal |
| ListRender.SortedIdsUnique | cmd/list.go:501 | any two permutations of the children sorted by id descending list the same ids in the same order |
| ListRender.Swap | cmd/list.go:501 | exchanging two neighbours keeps the multiset of items |
| ListRender.Sink | cmd/list.go:501 | moving one item left past smaller ids extends the sorted prefix and keeps the multiset |
| ListRender.SortByIdDesc | cmd/list.go:501 | the in-place sort leaves the items ordered by id, highest first, and is a permutation |
| ListRender.ParentColumn | cmd/list.go:481 | the parent's column is the value of one of its Kanban column fields, or "" when it has none |
| ListRender.SortedChildren | cmd/list.go:501 | the children sorted by id descending, as a permutation |
| ListRender.Table | cmd/list.go:502-516 | the children heading, header and rows of the sorted children |
| ListRender.PageWitness | cmd/list.go:471-518 | a page built from the parent section and the sorted children is a children page |
| ListRender.RenderChildren | cmd/list.go:471-518 | one lookup of the user, then the parent row (or the placeholder), then "No work-items found." or the children sorted by id descending |
| Render.EscapePipes | cmd/render.go:74 | escaping never shortens the text |
| Render.EscapePipesRoundTrip | cmd/render.go:74 | unescaping `\|` gives the original text back, so escaping changes nothing but the pipes |
| Render.EscapeStart | cmd/render.go:74 | an escaped text never starts with a bare `|` |
| Render.EscapedPipesGuarded | cmd/render.go:74 | every `|` of the escaped text is preceded by a backslash |
| Render.AssigneeDisplay | cmd/list.go:541-554 | a non-empty string assignee is shown as is; any other result is the `displayName` string of an identity object, or "" |
| Render.FormatTags | cmd/render.go:76-92 | the split-trim-keep loop gives the tag text |
| Render.SplitAllSpace | cmd/render.go:77-80 | the pieces of a blank tag list are all blank |
| Render.NonBlankAllBlank | cmd/render.go:82-87 | blank pieces are all dropped |
| Render.TagsTextSpec | cmd/render.go:76-92 | "(none)" whenever no non-blank tag remains, blank input included; otherwise the trimmed non-blank tags joined with ", " |
| Render.TagsTextClean | cmd/render.go:80-91 | clean tags joined with `;` come out joined with `, ` |
| Render.JoinedNotBlank | cmd/render.go:77 | clean tags joined with `;` are never blank |
| Render.DetailLinesShape | cmd/render.go:39-53 | eight lines, or nine exactly for a Bug with a non-blank severity; the Kanban column, tags and URL lines are always last, in that order |
| Render.RenderWorkItem | cmd/render.go:13-57 | no item is the error "no work-item to render"; otherwise the markdown document of the item's detail lines |
| Render.Display | cmd/workon.go:37-41 | output that decodes as a work item is rendered; otherwise the raw output is passed through |
| Picker.TitleOr | cmd/picker.go:27-30 | the label's title is never empty: the item's title when it has one, "(no title)" otherwise |
| Picker.Initial | cmd/picker.go:31-35 | nothing for an empty type; else one character: a lower-case ASCII first letter upper-cased, another ASCII character kept, and U+FFFD for a non-ASCII start, whose first byte alone is invalid UTF-8 |
| Picker.ItemOptions | cmd/picker.go:25-42 | one option per item, in the items' order |
| Picker.OptionsBy | cmd/picker.go:39-42 | one option per item, in the items' order |
| Picker.ChoiceShowsId | cmd/picker.go:36-41 | an option returns its item's decimal id, and its label starts with `<id> | ` |
| Picker.DecimalIdentifies | cmd/picker.go:41 | the decimal id reads back as the id, and two ids get the same value only when they are equal |
| Picker.Chosen | cmd/picker.go:13-52 | a query error passes through; no items is "no items to select" before any prompt; a form error passes through; a blank selection is "no selection"; otherwise the chosen value |
| Picker.PickedAll | cmd/picker.go:55-94 | as the single picker, with an empty multi-selection refused as "no selection" |
| Picker.Choose | cmd/picker.go:18-51 | the select step gives what the single-picker specification gives |
| Picker.ChooseAll | cmd/picker.go:60-93 | the select step gives what the multi-picker specification gives |
| Picker.PickNonClosedID | cmd/picker.go:13-52 | one listing of the non-Closed items of every type in the configured order, then the pick |
| Picker.PickNonClosedIDs | cmd/picker.go:55-94 | one listing of the non-Closed items, then the multi-pick |
| Forward.Inspect | cmd/forward.go:30-42 | one show call; its error passes through; an item that does not decode is "unable to inspect work item"; a missing Kanban field or an empty column is "kanban column field not found"; otherwise a Kanban field of the item and its non-empty column |
| Forward.Move | cmd/forward.go:48-60 | exactly one update carrying the single Kanban field set to the target column; its error is returned unchanged and its output printed |
| Forward.Advance | cmd/forward.go:43-53 | a failing step through the column order is returned and no update is issued; otherwise the one update to the column the step yields |
| Forward.MoveCmd | cmd/forward.go:30-60 | the show call comes first; an inspection error stops the command after it; otherwise the step and the single update follow |
| Forward.MovePicked | cmd/forward.go:20-29 | without an id the listing of non-Closed items comes first; a failed pick is returned with no further call; a picked id is moved as a given one |
| Forward.ForwardCmd | cmd/forward.go:19-61 | the item given, or the one picked, is moved to the next column with one update, as above |
| Backward.BackwardCmd | cmd/backward.go:19-55 | the item given, or the one picked, is moved to the previous column with one update; a step failure such as "already in first column" issues no update |
| Workon.WorkFields | cmd/workon.go:30-33 | the update carries exactly AssignedTo = the user and State = Active |
| Workon.Target | cmd/workon.go:16-25 | the positional id when given, else the picker's outcome, its error included |
| Workon.WorkOn | cmd/workon.go:26-41 | the user lookup comes first and a failure is wrapped as "get current user" with no update; otherwise exactly one two-field update follows, its error returned unchanged and its output printed |
| Workon.WorkedOnWithoutUser | cmd/workon.go:26-29 | a failed user lookup gives the wrapped error after that one call |
| Workon.WorkedOnAfterUpdate | cmd/workon.go:30-41 | after a lookup, the one update and its printed result complete the command |
| Workon.Assign | cmd/workon.go:30-41 | one update with the two fields; its error passes through and its output is printed |
| Workon.WorkonCmd | cmd/workon.go:15-41 | a picker error is returned with no call; otherwise the command runs on the id given or picked |
| Workon.WorkUpdateArgs | cmd/workon.go:30-33 | the update argv is one of exactly two, the two `key=value` tokens in either order |
| Workon.TwoKeys | cmd/workon.go:30-33 | the map is visited in one of the two orders of its two keys |
| State.Targets | cmd/state.go:17-26 | one positional argument gives exactly that id; otherwise the picker's ids or its error |
| State.ResolveTarget | cmd/state.go:35-38 | a Task is set to Closed and any other type to Resolved |
| State.ResolveStep | cmd/state.go:28-42 | `resolve` shows the item first; a failed show or an item that does not decode ends the step with that error and no update; otherwise one update sets the state by the type |
| State.FixedStateSteps | cmd/state.go:74-109 | `renew` and `close` make exactly one call, a single-field update to New or Closed |
| State.Step | cmd/state.go:27-52 | one id's calls and error are those the step specification gives, and a step without error prints its result |
| State.DeleteOne | cmd/state.go:143-151 | one delete call; its error is returned, else its output is printed |
| State.SetOne | cmd/state.go:73-87 | one state update to New or Closed; its error is returned, else the item is printed |
| State.ResolveOne | cmd/state.go:27-52 | the show, then the update to the type's target, as the step specification gives |
| State.SetAndShow | cmd/state.go:39-51 | one state update; its error is returned, else the output is rendered or passed through |
| State.Update | cmd/state.go:39 | one single-field state update and its outcome |
| State.Halt | cmd/state.go:27-53 | the loop stops at the first id whose step fails, or after the last id |
| State.Each | cmd/state.go:27-53 | ids are handled in order; the first error is returned and later ids get no call; every id before it was handled and printed |
| State.Conclude | cmd/state.go:27-54 | the loop's state at the halt point is the processed outcome |
| State.StepAt | cmd/state.go:27-53 | the loop body appends one id's calls to the trace and gives its error |
| State.DoneExtend | cmd/state.go:27-53 | a handled id extends the handled prefix |
| State.CallsStep | cmd/state.go:27-53 | the calls of one more id follow those of the ids before it |
| State.HaltAt | cmd/state.go:27-53 | the first failing step, or the end, is where the loop halts |
| State.HaltFrom | cmd/state.go:27-53 | the halt point is the first id whose step fails |
| State.StateCmd | cmd/state.go:16-55 | a picker error is returned with no call; otherwise the per-id loop runs on the ids given or picked |
| State.SingleId | cmd/state.go:18-19 | with one id, exactly that id's step runs, and its result is printed iff it succeeds |
| Edit.Contains | cmd/edit.go:258-265 | the scan finds the element exactly when it is in the list |
| Edit.DefaultColumn | cmd/edit.go:101-106 | the form's column is always one of the order: the current column when it is non-empty and in the order, else the order's first column |
| Edit.Prefill | cmd/edit.go:44-121 | the form starts with the item's title, state and assignee display, the description as markdown, not confirmed; only a Bug has a severity (never blank) and only a User Story a column (one of the order) and acceptance criteria |
| Edit.OnForm | cmd/edit.go:128-139 | the form lets the user change title, assignee, description and the confirmation for every type, the state except for a User Story, the severity only for a Bug, and the column and acceptance criteria only for a User Story; every other value keeps its start |
| Edit.FixedKeysApart | cmd/edit.go:149-177 | the five field names the edit may set are pairwise different |
| Edit.KanbanKeyApart | cmd/edit.go:158-162 | a Kanban column field never collides with one of the fixed field names |
| Edit.CollectSpec | cmd/edit.go:149-177 | with distinct keys, a key is in the filled map exactly when its entry is on, holds that entry's value, and the map has no other key |
| Edit.Entries | cmd/edit.go:149-177 | the fields map is filled from six candidate entries |
| Edit.ChangesSpec | cmd/edit.go:149-177 | the fields update holds the title and state when they differ, the new column (not for a Task, non-empty, different) under the Kanban field, description and acceptance criteria when their trimmed markdown changed (as HTML), the empty assignee when a displayed assignee was cleared; and nothing else |
| Edit.SixEntries | cmd/edit.go:149-177 | six entries with distinct keys fill a map whose keys are exactly the keys of the entries that are on, each with its value |
| Edit.CollectStep | cmd/edit.go:149-177 | filling one more entry sets its key when it is on and changes nothing otherwise |
| Edit.Fill | cmd/edit.go:149-177 | the map filled one conditional assignment at a time is the collected map of the entries |
| Edit.CollectLast | cmd/edit.go:175-177 | the last entry overrides the map filled from the first five exactly when it is on |
| Edit.FieldsStage | cmd/edit.go:180-187 | the fields update is issued exactly when the map is non-empty |
| Edit.SeverityStage | cmd/edit.go:189-201 | a severity update (blank taken as "3 - Medium") is issued exactly for a Bug whose trimmed severity differs from the item's |
| Edit.AssigneeStage | cmd/edit.go:202-208 | an assignee update is issued exactly when the assignee is non-blank and differs from the displayed one |
| Edit.PlanShape | cmd/edit.go:179-211 | at most three updates; the fields update, when non-empty, comes first; no update at all exactly when every stage is empty |
| Edit.MediumTrimmed | cmd/edit.go:85 | the default severity has no surrounding white space |
| Edit.TrimmedFixed | cmd/edit.go:192 | trimming a text without leading or trailing white space leaves it as it is |
| Edit.UntouchedForm | cmd/edit.go:101-177 | submitting the form unchanged puts no title, state, description or criteria into the update; the column is set only for a User Story whose current column was not in the order (and differs from the first); the assignee is cleared only when the displayed one was blank but not empty |
| Edit.UntouchedChanges | cmd/edit.go:149-177 | any fields update of an unchanged form holds only the Kanban key and the assignee, under the conditions above |
| Edit.UntouchedStages | cmd/edit.go:81-208 | an unchanged form updates the severity only for a Bug whose severity was blank, to "3 - Medium", and never updates the assignee |
| EditFlow.IssuedSpec | cmd/edit.go:179-208 | the updates run in plan order, each call carrying its update; every call before the last succeeded; an error is the last call's and stops the plan; success ran the whole plan and keeps the last output |
| EditFlow.IssuedThen | cmd/edit.go:179-208 | a plan that ran without error continues with the next one as one run |
| EditFlow.IssuedStop | cmd/edit.go:179-208 | a run that failed stays failed however the plan goes on |
| EditFlow.Issue | cmd/edit.go:180-208 | one update is one `az` call, recorded in the client's trace, whose outcome is the result |
| EditFlow.Apply | cmd/edit.go:179-208 | the update stage issues the plan for the fields, the severity and the assignee, stopping at the first error |
| EditFlow.UpdateFields | cmd/edit.go:180-187 | issues the fields stage of the plan |
| EditFlow.UpdateSeverity | cmd/edit.go:189-201 | after a successful start, issues the severity stage of the plan |
| EditFlow.UpdateAssignee | cmd/edit.go:202-208 | after a successful start, issues the assignee stage of the plan |
| EditFlow.Then | cmd/edit.go:180-208 | one more update after a successful start extends the plan's run by one call |
| EditFlow.Stopped | cmd/edit.go:180-208 | a stage that failed is the plan's outcome, the later stages not issued |
| EditFlow.Planned | cmd/edit.go:179-208 | the three stages in order are the plan |
| EditFlow.Finish | cmd/edit.go:209-218 | prints the item as it was, titled "No changes", when no update ran or the last output is empty; otherwise the last output, titled "Edited" |
| EditFlow.Respond | cmd/edit.go:140-146 | a form error is returned and a declined confirmation is "cancelled", neither issuing anything; otherwise the changes of the user's values are issued and printed |
| EditFlow.Submit | cmd/edit.go:179-218 | the plan is issued; its error is the result, else the final print |
| EditFlow.EditItem | cmd/edit.go:44-218 | the current column and the Kanban field are what the column lookup may return, the form starts from the item's values, and its outcome is answered as above |
| EditFlow.EditWorkItem | cmd/edit.go:35-218 | the item is shown first; a show error is returned, an item that does not decode is "unable to inspect work item", neither going further; otherwise the form and the updates follow the show |
| EditFlow.EditCmd | cmd/edit.go:23-218 | the item is the positional argument, else the picker's choice; a picker error is returned with no call |
| Create.ParentOptions | cmd/create_bug.go:129-137 | one option per candidate story, in the stories' order, labelled "<id> \| <title>" with "(no title)" for a blank title |
| Create.PickParent | cmd/create_bug.go:122-145 | the parent picker lists the User Stories that are not Closed in the configured order; an empty listing is "no User Stories available to select as parent" and a blank choice "no parent selected" |
| Create.Validation | cmd/create_bug.go:66-71 | a parent passes exactly when it can be shown, decodes and is a User Story; a show error is wrapped as "validate parent", anything else is "parent <id> is not a User Story" |
| Create.ValidateParent | cmd/create_bug.go:67-71 | one show of the parent, whose outcome decides the validation |
| Create.ParentNotBlank | cmd/create_bug.go:30-64 | a resolved parent is never blank |
| Create.ParentChecked | cmd/create_bug.go:66-71 | a parent that passed the check was shown, decoded and is a User Story |
| Create.FlagParent | cmd/create_bug.go:30-72 | a non-blank flag is used trimmed, without the picker; only the check's show may run |
| Create.PickedParentNotBlank | cmd/create_bug.go:61-64 | the picker's choice is never blank |
| Create.Propose | cmd/create_bug.go:30-65 | the trimmed flag when it is not blank, with no call; else the picker's outcome, after its listing |
| Create.CheckParent | cmd/create_bug.go:66-71 | the check of a proposed parent makes its one show only when it is asked for and there is a parent |
| Create.ResolveParent | cmd/create_bug.go:30-72 | the parent comes from the flag or the picker, then passes the check when it is asked for; the calls are the listing (picker only) then the show (check only) |
| Create.TitleOf | cmd/create_task.go:221-227 | the parent's title for the heading, empty when the show fails or does not decode |
| Create.ParentTitle | cmd/create_task.go:221-227 | one show of the parent, whose outcome gives the title |
| Create.Assignee | cmd/create_bug.go:75-86 | a blank flag sets no assignee; "@me" is the signed-in user, a failed lookup wrapped as "get current user"; any other flag is used trimmed |
| Create.ResolveAssignee | cmd/create_bug.go:75-86 | the user lookup runs exactly for "@me" and gives the assignee above |
| Create.Prefill | cmd/create_bug.go:155-162 | the forms start from the same assignee, except that a failed lookup leaves it empty instead of ending the command |
| Create.PrefillAssignee | cmd/create_bug.go:155-162 | the lookup runs exactly for "@me" and gives the prefilled assignee |
| Create.WithAssignee | cmd/create_bug.go:82-84 | the assignee, when there is one, is set and nothing else changes |
| Create.WithNonBlank | cmd/create_bug.go:196-201 | a value is set only when it is not blank, and nothing else changes |
| Create.WithHtml | cmd/create_bug.go:202-204 | a markdown text is set as its HTML only when it is not blank, and nothing else changes |
| Create.KeysDistinct | cmd/create_story.go:88-97 | the field names the create commands set are pairwise different |
| Create.ShowHeading | cmd/create_bug.go:164 | one show of the parent gives the heading with the parent's id and title |
| Create.ApplyState | cmd/create_task.go:209-217 | the state update runs only for a state other than blank or "New"; a failed update or an output that does not decode keeps the created item |
| Create.FollowUp | cmd/create_task.go:209-218 | prints the item after the state follow-up; the follow-up never fails the command |
| Create.Attach | cmd/create_bug.go:103-108 | after the create call the new item is linked as a child of the parent; a failed link is "created <kind> <id> but failed to add parent relation to <pid>", otherwise the follow-up decides what is printed |
| Create.Decode | cmd/create_bug.go:99-102 | a create output that does not decode is printed raw with no further call; otherwise it is linked |
| Create.Link | cmd/create_bug.go:95-108 | the create call carries the fields in some order of their keys; its error is returned, else its output is decoded and linked |
| Create.LinkSpec | cmd/create_bug.go:95-108 | the create call comes first; its error ends the command; undecodable output is printed raw; a decoded item is linked next, and the command fails exactly when the link does, with the relation error |
| CreateBug.SeverityLabel | cmd/create_bug.go:219-236 | a label, when there is one, is one of the four severities; a refused value is "invalid --severity value", naming the value as given |
| CreateBug.SeverityLabelSpec | cmd/create_bug.go:220-236 | a blank value, and only a blank value, gives no label; exactly the blank value and the digits 1 to 4 (trimmed) are accepted |
| CreateBug.DigitTrimmed | cmd/create_bug.go:221 | a single digit is its own trimmed form |
| CreateBug.SeverityRoundTrip | cmd/create_bug.go:175-232 | each severity the form offers is what its leading digit resolves to |
| CreateBug.LabelDigit | cmd/create_bug.go:225-232 | the round trip for one severity |
| CreateBug.SeverityField | cmd/create_bug.go:87-94 | the flag path sets the flag's label, "3 - Medium" when the flag is blank, and fails exactly when the flag is refused |
| CreateBug.SeverityPrefill | cmd/create_bug.go:150-154 | the form opens on one of the severities: the flag's, or Medium where the flag path would fail or give none |
| CreateBug.BugFieldsSpec | cmd/create_bug.go:74-94 | a Bug is created from flags with exactly the state New, the severity and, when there is one, the assignee |
| CreateBug.FiledSteps | cmd/create_bug.go:74-108 | once the parent is known: the assignee's error, then the severity's error, end the command; otherwise the create call with those fields and the link follow |
| CreateBug.File | cmd/create_bug.go:74-108 | runs the calls and returns what the filed specification says |
| CreateBug.BugSteps | cmd/create_bug.go:24-108 | a parent error ends the command after the parent's calls; otherwise the Bug is filed under that parent; a parent given by flag is checked |
| CreateBug.CreateBug | cmd/create_bug.go:24-108 | runs the calls and returns what the Bug specification says; the picker's choice is never blank |
| CreateBug.FlagParentIsStory | cmd/create_bug.go:65-72 | a Bug is created under a flag parent only after that parent was shown first and found to be a User Story |
| CreateBug.InvalidSeverityCreatesNothing | cmd/create_bug.go:87-90 | a refused severity fails the command before the create call: only the parent's calls and the assignee lookup run |
| CreateBug.FlagBugCreated | cmd/create_bug.go:74-108 | with the assignee and severity resolved, the create call carries New and one of the severities (Medium when the flag is blank) and is followed by the link |
| CreateBug.BugStart | cmd/create_bug.go:148-162 | the form opens empty, in state New, with one of the severities and the prefilled assignee, not confirmed |
| CreateBug.FormFieldsSpec | cmd/create_bug.go:195-204 | the form's fields hold the state, and the severity, assignee and description (as HTML) each exactly when it is not blank; nothing else |
| CreateBug.Ask | cmd/create_bug.go:155-191 | the assignee lookup and the parent's show run before the form, whose outcome is the answer |
| CreateBug.Submit | cmd/create_bug.go:189-216 | a form error is returned and a declined form is "cancelled", neither calling anything; otherwise the Bug is created with the form's fields and linked |
| CreateBug.FileForm | cmd/create_bug.go:148-216 | the calls before the form, then those its answer leads to |
| CreateBug.InteractiveSteps | cmd/create_bug.go:119-216 | the parent from the flag or the picker, never checked; a parent error ends the command; otherwise the form path follows |
| CreateBug.CreateBugInteractively | cmd/create_bug.go:119-216 | runs the calls and returns what the interactive specification says |
| CreateBug.InvalidSeverityOpensAtMedium | cmd/create_bug.go:150-154 | a refused severity flag does not stop the form; it opens at Medium |
| CreateBug.UnconfirmedCreatesNothing | cmd/create_bug.go:189-194 | a form that fails or is not confirmed creates nothing and fails the command |
| CreateBug.BugCmd | cmd/create_bug.go:24-27 | without a title argument the interactive path, with one the flag path |
| CreateTask.TaskFields | cmd/create_task.go:77-90 | a Task is created from flags with no state and exactly the assignee, when there is one |
| CreateTask.FiledSteps | cmd/create_task.go:77-104 | once the parent is known: the assignee's error ends the command; otherwise the create call with those fields and the link follow |
| CreateTask.File | cmd/create_task.go:77-104 | runs the calls and returns what the filed specification says |
| CreateTask.TaskSteps | cmd/create_task.go:23-104 | a parent error ends the command after the parent's calls; otherwise the Task is filed under that parent; the check runs whenever the flag was given, even blank |
| CreateTask.CreateTask | cmd/create_task.go:23-104 | runs the calls and returns what the Task specification says; the picker's choice is never blank |
| CreateTask.FlagParentIsStory | cmd/create_task.go:68-75 | a Task is created under a non-blank flag parent only after that parent was shown first and found to be a User Story |
| CreateTask.BlankFlagChecksPicked | cmd/create_task.go:29-75 | a `--parent` of blanks runs the picker and then also shows the picked story to check it |
| CreateTask.FlagTaskCreated | cmd/create_task.go:77-101 | a failed lookup of "@me" creates nothing; otherwise the create call carries no state (no fields at all without an assignee) and is followed by the link |
| CreateTask.TaskStart | cmd/create_task.go:155-164 | the form opens empty, in state New, with the prefilled assignee, not confirmed |
| CreateTask.FormFieldsSpec | cmd/create_task.go:190-197 | the form's fields hold no state, and the assignee and description (as HTML) each exactly when it is not blank |
| CreateTask.Ask | cmd/create_task.go:157-186 | the assignee lookup and the parent's show run before the form, whose outcome is the answer |
| CreateTask.Submit | cmd/create_task.go:184-218 | a form error is returned and a declined form is "cancelled", neither calling anything; otherwise the Task is created, linked and its state followed up |
| CreateTask.FileForm | cmd/create_task.go:155-218 | the calls before the form, then those its answer leads to |
| CreateTask.InteractiveSteps | cmd/create_task.go:127-218 | the parent from the flag or the picker, never checked; a parent error ends the command; otherwise the form path follows |
| CreateTask.CreateTaskInteractively | cmd/create_task.go:127-218 | runs the calls and returns what the interactive specification says |
| CreateTask.StateFollowUp | cmd/create_task.go:198-218 | after the create call and the link, one state update runs exactly for a state other than blank or New; the updated item is rendered when the update succeeds and decodes, the created one otherwise |
| CreateTask.UnconfirmedCreatesNothing | cmd/create_task.go:184-189 | a form that fails or is not confirmed creates nothing and fails the command |
| CreateTask.TaskCmd | cmd/create_task.go:23-26 | without a title argument the interactive path, with one the flag path |
| CreateStory.Displayed | cmd/create_story.go:44-48 | output that does not decode as a work item is printed raw, exactly then; otherwise the decoded item is rendered |
| CreateStory.Present | cmd/create_story.go:44-48 | prints what `Displayed` gives for the output |
| CreateStory.StoryFields | cmd/create_story.go:27-39 | a User Story is created from flags with exactly the state New and, when there is one, the assignee |
| CreateStory.Make | cmd/create_story.go:40-48 | one create call carrying the fields in some order of their keys; its error is returned, else its output printed |
| CreateStory.StorySteps | cmd/create_story.go:26-48 | the assignee's error ends the command; otherwise one create call follows the lookup |
| CreateStory.CreateStory | cmd/create_story.go:26-48 | runs the calls and returns what the story specification says |
| CreateStory.FlagStoryCreated | cmd/create_story.go:28-39 | a failed lookup of "@me" is the only call and fails as "get current user"; otherwise one create call follows, in state New, with an assignee exactly when the flag is not blank |
| CreateStory.StoryStart | cmd/create_story.go:58-67 | the form opens empty on the given column with the prefilled assignee, not confirmed |
| CreateStory.FormFieldsSpec | cmd/create_story.go:88-97 | the form's fields hold state New, and the assignee, description and acceptance criteria (as HTML) each exactly when it is not blank; nothing else |
| CreateStory.Ask | cmd/create_story.go:57-84 | the assignee lookup runs before the form, which opens on the order's first column |
| CreateStory.Place | cmd/create_story.go:102-120 | the create output is decoded and, when `Places` holds, the new item's Kanban field is set to the column |
| CreateStory.Submit | cmd/create_story.go:82-120 | a form error is returned and a declined form is "cancelled", neither calling anything; otherwise the story is created and placed |
| CreateStory.CreateStoryInteractively | cmd/create_story.go:57-121 | runs the calls and returns what the interactive specification says |
| CreateStory.ColumnPlacement | cmd/create_story.go:102-119 | after a decoded create, one column update of a single Kanban field runs exactly when the item has a Kanban field and the column is not blank; its error is returned unchanged and its output printed; otherwise the created item is rendered |
| CreateStory.UnconfirmedCreatesNothing | cmd/create_story.go:82-87 | a form that fails or is not confirmed creates nothing; a declined form is "cancelled" |
| CreateStory.StoryCmd | cmd/create_story.go:22-25 | without a title argument the interactive path, with one the flag path |
| Show.CreatedByDisplay | cmd/show.go:194-207 | a missing creator field reads as "" |
| Show.CreatedByForms | cmd/show.go:195-207 | a creator stored as a plain string or as an identity object's `displayName` string reads back as that name; an identity object without it, or any other kind of value, reads as "" |
| Show.OrNil | cmd/show.go:67-71 | a blank value is shown as "NIL", any other value as it is |
| Show.OrNilNotBlank | cmd/show.go:67-71 | neither a value nor its placeholder is ever blank |
| Show.LabelsAppend | cmd/show.go:86-137 | the labels of two runs of sections are the labels of each, one after the other |
| Show.LayoutLabels | cmd/show.go:86-137 | the sections are Title, Severity (Bug only), Created By, Assignee, Column (User Story only), State, Description, then Acceptance Criteria and Children (User Story only), in that order |
| Show.SectionsByType | cmd/show.go:86-137 | the document starts with the heading naming type and id; Severity appears exactly for a Bug; Column, Acceptance Criteria and Children exactly for a User Story, the children last; the other sections always |
| Show.Placeholders | cmd/show.go:61-116 | the creator shows as "(unknown)" when it is empty; every other section except Title and State is never blank, a blank value being shown as "NIL" |
| Show.Compose | cmd/show.go:55-137 | the document is written for the item with a column some Kanban field holds and the children sorted by id, highest first, as a permutation of those fetched |
| Show.Document | cmd/show.go:46-137 | a User Story's children are queried first and a query error is returned; any other type makes no call and has no children |
| Show.Inspect | cmd/show.go:38-53 | after the show: its error is returned, an item that does not decode is "unable to inspect work item", otherwise the document follows |
| Show.ShowItem | cmd/show.go:38-137 | `show <id>` makes the show call and then what follows its outcome |
| Show.ShowPicked | cmd/show.go:27-36 | without an id the listing of items not Closed runs first; a picker error ends the command there, otherwise the picked id is shown |
| Show.ShowCmd | cmd/show.go:26-137 | the id given, or the one picked |
| RepoCmd.Pow | cmd/repo.go:343-352 | a power of 1024 is at least 1 |
| RepoCmd.Exponent | cmd/repo.go:347-352 | a size of at least 1 KB is written in the largest power of 1024 not above it, from KB up to TB at most |
| RepoCmd.DivDiv | cmd/repo.go:348-351 | dividing twice is dividing once by the product, so the repeated division gives the size over a power of 1024 |
| RepoCmd.DivAtLeast | cmd/repo.go:348 | a quotient reaches `b` exactly when the dividend reaches `a * b`, so the loop's test on the divided value is a test on the size |
| RepoCmd.HumanSize | cmd/repo.go:339-354 | the loop dividing by 1024 while the value is at least 1024, four times at most, writes the size as "0 B" for a non-positive size, in bytes below 1 KB, else in whole units of the largest unit that fits |
| RepoCmd.SizeMantissa | cmd/repo.go:347-353 | below 1024 TB the number shown is between 1 and 1023; from 1024 TB on the unit stays TB |
| RepoCmd.SizeTextBytes | cmd/repo_test.go:9-23 | 0 and negative sizes are "0 B"; 1 and 1023 are written in bytes |
| RepoCmd.SizeTextUnits | cmd/repo_test.go:9-23 | 1024 is "1 KB", 2048 "2 KB", 1024 * 1024 "1 MB" |
| RepoCmd.LookupSpec | cmd/repo.go:286-292 | a repository is found exactly when one matches (name equal up to case, or id equal), and it is the first that does; otherwise "repository not found" naming the key |
| RepoCmd.FindRepo | cmd/repo.go:280-293 | one listing call; its error is returned, else the trimmed key is looked up in it |
| RepoCmd.NameWidth | cmd/repo.go:157-163 | the width is the length of the longest name: no name is longer and some name has it; 0 for no repositories |
| RepoCmd.LongestName | cmd/repo.go:158-163 | the loop computes the longest name's length |
| RepoCmd.Spaces | cmd/repo.go:165 | a run of `n` spaces |
| RepoCmd.Pad | cmd/repo.go:165 | `%-*s`: the text, then spaces up to the width; never shorter than the text |
| RepoCmd.Columns | cmd/repo.go:165 | what follows the padded name starts with the " \| " separator |
| RepoCmd.LineAligned | cmd/repo.go:158-165 | padded to a width no name exceeds, a line starts with the name and has its first separator right at the width |
| RepoCmd.Aligned | cmd/repo.go:157-166 | with the longest name's width, every line's first separator is in the same column |
| RepoCmd.Lines | cmd/repo.go:164-166 | one line per repository, in order |
| RepoCmd.ListLines | cmd/repo.go:157-166 | the loops produce the lines at the longest name's width |
| RepoCmd.BuildOptions | cmd/repo.go:308-313 | a line per repository, then Cancel last |
| RepoCmd.LessIrreflexive | cmd/repo.go:156 | no name is below itself under Go's string order |
| RepoCmd.LessTransitive | cmd/repo.go:156 | Go's string order is transitive |
| RepoCmd.LessTotal | cmd/repo.go:156 | any two different names are ordered one way or the other |
| RepoCmd.NotLessTransitive | cmd/repo.go:156 | "not below" is transitive |
| RepoCmd.Insert | cmd/repo.go:156 | inserting keeps every repository and adds one |
| RepoCmd.InsertSorted | cmd/repo.go:156 | inserting into a listing sorted by lower-cased name keeps it sorted |
| RepoCmd.TailNotBelowHead | cmd/repo.go:156 | after a head below the inserted repository, nothing that follows is below the head |
| RepoCmd.InsertAfterHead | cmd/repo.go:156 | a head below the inserted repository stays in front |
| RepoCmd.InsertAtHead | cmd/repo.go:156 | a repository not above the head goes in front |
| RepoCmd.SortByNameSpec | cmd/repo.go:156 | the listing order is sorted by lower-cased name and is a permutation of the repositories |
| RepoCmd.ClampSpec | cmd/repo.go:316-323 | the remembered index is clamped into the listed range, kept when it is listed |
| RepoCmd.RepoPicker.constructor | cmd/repo.go:21-22 | no index is remembered at first |
| RepoCmd.RepoPicker.Preselect | cmd/repo.go:315-324 | the preselected index is a listed one: the clamped remembered index, else the first |
| RepoCmd.RepoPicker.PickFromList | cmd/repo.go:297-337 | no repositories is "no repositories to select"; a picker error is returned and Cancel is the cancellation, both leaving only the clamping in memory; a choice returns that repository and is remembered for the next preselection |
| RepoCmd.SortByNameLength | cmd/repo.go:253 | sorting keeps the number of repositories |
| RepoCmd.PickedListed | cmd/repo.go:245-278 | a picked repository is one of those listed |
| RepoCmd.PickRepo | cmd/repo.go:245-278 | one listing call; its error is returned, no repositories is "no repositories found", otherwise the choice among the sorted repositories, Cancel being the cancellation |
| RepoCmd.ListingSpec | cmd/repo.go:145-169 | the listing's error, exactly when there is one; otherwise one line per repository, the repositories sorted by lower-cased name (a permutation) and padded to the longest name |
| RepoCmd.ListCmd | cmd/repo.go:145-169 | one listing call, then the lines above |
| RepoCmd.Resolve | cmd/repo.go:99-136 | the repository named, or the one picked when none is, after one listing call |
| RepoCmd.ViewCmd | cmd/repo.go:93-114 | the browser is given the trimmed web URL of the resolved repository, or the resolution's error is returned |
| RepoCmd.CloneCmd | cmd/repo.go:117-142 | git is given the trimmed https URL with `--https`, else the trimmed ssh URL, of the resolved repository, or the resolution's error is returned |
| RepoCmd.CreateCmd | cmd/repo.go:171-195 | a blank name is "repository name required" before any call; otherwise one create call for the trimmed name, whose error is returned, else the report "Created repo <name> (<id>)" and, when asked, the URL to clone |
| RepoCmd.DeleteCmd | cmd/repo.go:197-224 | without `--yes` a failed or declined confirmation ends the command with no call; then the repository is looked up (its error returned) and deleted by id with `--yes`, the delete's error returned |
| Root.TrimLeftLower | cmd/root.go:73-81 | lower-casing and trimming on the left commute |
| Root.TrimRightLower | cmd/root.go:73-81 | lower-casing and trimming on the right commute |
| Root.EnvTrueNormalized | cmd/root.go:73-81 | `envTrue` holds exactly when the normalised value is one of "1", "true", "yes", "y", "on" |
| Root.EnvTrueYes | cmd/root.go:73-81 | case and surrounding white space do not matter |
| Root.EnvTrueNo | cmd/root.go:73-81 | a word outside the set is off |
| Root.PoOrderDefaultSpec | cmd/root.go:70-81 | `--po-order` defaults on exactly when either `AB_PO_ORDER` or `AB_STACKRANK` switches an option on; both unset leave it off |
| Root.ConfiguredSpec | cmd/root.go:22-31 | `--yes` selects never whatever `--confirm` says; without either the mode stays; otherwise the `--confirm` word decides; an invalid word is the error and keeps the mode |
| Root.PreRun | cmd/root.go:22-38 | the mode is set first and an error stops the hook before silent mode and the columns are touched; otherwise silent mode follows the flag and `--default-columns` loads the Agile columns |

## Left out

- Process execution of `az` (`realAzExec`), `git clone`, opening the browser and writing the markdown file are I/O. The model stops at the argv or URL handed to them, or at the markdown text.
- Terminal probing (the native width and `stty`) and the process environment (`AB_COLUMNS`, `COLUMNS`, `AB_PO_ORDER`, `AB_STACKRANK`, `AB_CONFIRM`) are parameters.
- The home-directory and user lookups and `filepath.Join` are parameters of `Path.ExpandTilde`.
- Glamour rendering, lipgloss styling and the messages written to stderr are not modelled. Documents end at their markdown string.
- The huh forms and pickers are parameters: a function from what is shown to the user's answer. Their title validators are not modelled, so a form may answer with a blank title.
- The interactive `repo` loop without a subcommand (cmd/repo.go:28-89) is not modelled beyond `RepoCmd.RepoPicker.PickFromList`. It only chains that picker with clone and browser actions.
- The echo text written by `runAz` is modelled as the argv itself, not as its shell-quoted form (`shellescape`).
- `htmlToMarkdown` and `markdownToHTML` (cmd/edit.go:233-252) are modelled only for their blank-input cases. The conversions themselves are uninterpreted functions passed in.
- `GetDevOpsDefaults` and `BoardColumnsForType` are not part of this model: no command calls them.
- JSON is decoded before the model sees it: byte-level parsing is left out. JSON numbers are integers, which is what every id read as `float64` or `int` holds.
- Go's map iteration order is left open. A ghost `order` out-parameter names the order a method chose (the `--fields` tokens, the `show` and `edit` column lookups). `Wi.FindKanbanColumn` may return any matching field.
- cmd/create.go only wires cobra commands and is not modelled.
- `sort.Slice` is modelled as an insertion sort by the same key. The contracts promise only what `sort.Slice` promises: sorted, and a permutation. The order among equal keys is left open.
- `RepoCmd.Pad` and `RepoCmd.NameWidth` count characters where Go counts bytes. The two agree on ASCII names.
- `RepoCmd.RepoPicker.PickFromList`, `RepoCmd.PickRepo`: the picker is assumed to return -1 (Cancel) or the index of a listed repository, which is what the options offered allow.
- `Workon.WorkonCmd`, `State.StateCmd` and `EditFlow.EditCmd` take the picker's outcome as a parameter. The listing calls the picker makes are not in their traces. `Forward.ForwardCmd`, `Backward.BackwardCmd` and `Show.ShowCmd` do trace them.
- `EditFlow.EditCmd` and `CreateStory.StoryCmd` require the column order to be non-empty, as the interactive forms index its first column. `Board.Columns` never becomes empty through its setters.
- `Show.CreatedByDisplay` states only the missing-field case in its own contract. The other cases are stated by `Show.CreatedByForms`.
- Strs.ToLower: lower-cases ASCII letters only, while Go's `strings.ToLower` maps all of Unicode (U+0130 'İ' becomes 'i', 'Ä' becomes 'ä'). The model and Go agree on strings whose letters are ASCII. A full Unicode case table is not modelled.
- Strs.ToUpperChar: upper-cases ASCII letters only. Its one use, `Picker.Initial`, only ever applies it to an ASCII byte, where this is exact.
- Strs.EqualFold: folds ASCII letters only, while Go's `strings.EqualFold` folds all of Unicode.
- Az.ParseConfirmMode: inherits the ASCII-only lower-casing, so a word such as "MUTATİONS" (with U+0130), which Go reads as "mutations", is refused here as an invalid mode.
- Az.ParseConfirmModeNormalized: "case does not matter" holds for the model's ASCII-only lower-casing.
- Root.EnvTrueNormalized: inherits the ASCII-only lower-casing of `envTrue`.
- RepoCmd.Matches: compares names with the ASCII-only `Strs.EqualFold`, so "ÄPFEL" does not match a repository named "äpfel", which Go's `strings.EqualFold` matches.
- RepoCmd.LookupSpec: "equal up to case" means up to ASCII case, as in `RepoCmd.Matches`.
- RepoCmd.FindRepo: the lookup inherits the ASCII-only name comparison of `RepoCmd.Matches`.
- RepoCmd.Key: the sort key is the ASCII-only lower-casing of the name, so names with non-ASCII capitals can sort differently from Go, whose key is `strings.ToLower` ("Åsa" before "ärende" here, after it in Go).
- RepoCmd.SortByNameSpec: the promised order is by `RepoCmd.Key`, the ASCII-only lower-casing of the name.
- Json.Member: finds an object member by its exact key. Go's `json.Unmarshal` also matches struct fields case-insensitively (`{"ID": 5}` fills `ID`), so `Az.ShownOf`, `Repos.ReposOf` and the other struct decoders here miss members written in another case. `az` writes the canonical keys.
- `Root.EnvTrueUnset` is proved without a body and is used only by `Root.PoOrderDefaultSpec`.

## Findings

| source | as written | input that shows it | evidently intended | confidence | as-written member | corrected member |
|---|---|---|---|---|---|---|
| cmd/list.go:336-346 | the children query's output is first read as a bare array, but only a non-empty one is accepted; an empty array then falls through to the object reading, which cannot read an array, and the command fails with "parse children" | a User Story whose child ids were found but whose children query returns `[]` (for example all children Closed without `--all`) | no children, the same as an empty `workItems` or `value` list | not executed | ListChildren.ChildrenAsWritten, ListChildren.EmptyChildrenArray | ListChildren.Children, ListChildren.ChildrenSpec |
