/** Optional values, results and the error values the tool produces.

    Every Go `error` the core returns is one constructor of `Error`; the
    `Wrapped` constructor models `fmt.Errorf("<context>: %w", inner)`. The
    two cancellations are kept apart on purpose: `Cancelled` is the sentinel
    `az.ErrCancelled` (a declined confirmation prompt), while `FormCancelled`
    is the fresh `fmt.Errorf("cancelled")` returned by interactive forms, a
    different value that `errors.Is(err, az.ErrCancelled)` does not match. */
module Errors {

  datatype Option<T> = None | Some(value: T)

  datatype Error =
    // internal/board/order.go
    | LastColumn(column: string)
    | FirstColumn(column: string)
    | UnknownColumn(column: string)
    | NoValidColumns
    // internal/az/az.go
    | InvalidConfirmMode(mode: string)
    | Cancelled
    | PromptFailed(reason: string)
    | ExecFailed(args: seq<string>, detail: string)
    // a json.Unmarshal failure
    | DecodeFailed
    // fmt.Errorf("<context>: %w", inner)
    | Wrapped(context: string, inner: Error)
    // internal/az/repos.go
    | UnexpectedCreateOutput
    // internal/util/wiql.go
    | UnrecognizedShape
    // cmd/*
    | FormCancelled
    | UnableToInspect(id: string)
    | KanbanFieldNotFound(id: string)
    | NoWorkItemToRender
    | NoItemsToSelect
    | NoSelection
    | InvalidSeverity(value: string)
    | NotAUserStory(id: string)
    | NoUserStories
    | NoParentSelected
    | RelationFailed(kind: string, child: int, parent: string, inner: Error)
    | RepoNotFound(name: string)
    | NoReposToSelect
    | NoRepositories
    | RepoNameRequired

  datatype Result<T> = Ok(value: T) | Fail(error: Error)
}
