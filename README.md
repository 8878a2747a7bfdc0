# GitMCP commit engine and HTTP routing, modelled in Dafny

GitMCP is an MCP (Model Context Protocol) server that lets an assistant work
on GitHub repositories. This project models two parts of it and proves
properties of the model:

- **The multi-file commit tools of `gitmcp.py`:**
  - `edit_file`, with its occurrence guard and replacement;
  - `batch_update_files` and `delete_files_batch`;
  - `move_file`, `move_files_batch` (with its validation pass) and `rename_file`;
  - `create_folder` and `delete_folder`;
  - `update_repo_settings`, with its per-field diff.

  They act on a `GitStore.Repository`: an object holding the blob store, the
  commit list, the branch refs and the repository settings.
  - A blob's sha is its index in the store, and a commit's id is its index in
    the commit list.
  - `create_git_tree` is taken to build one entry per path. Where a path is
    listed twice, the model lets the later element win; see "## Left out".
  - `get_contents(path, ref=branch)` finds one of three things: a file, a
    directory listing (the root, or a prefix of some file path), or nothing,
    which raises `GithubException`.

  Every tool that commits adds exactly one commit on top of the branch's
  previous tip and moves the branch to it. Every tool that fails leaves the
  repository unchanged.
- **The request routing of `remote_server.py`:**
  - how the token is taken from the `Authorization` header;
  - the per-token GitHub client cache;
  - the JSON-RPC dispatch of `tools/list` and `tools/call`, with its error
    codes. These follow section 5.1 of the JSON-RPC 2.0 specification: -32700,
    -32601 and -32603, plus -32002 for a missing or rejected token;
  - `MCPResponse.to_dict`.

Modules:

| file | module | contents |
|---|---|---|
| common.dfy | `Common` | `Option` |
| text.dfy | `Text` | Python string operations: `count`, `replace`, `split`, `join`, `strip`, `rstrip`, slicing, `str(int)` |
| repo_settings.dfy | `RepoSettings` | repository settings, the update plan, `repo.edit` |
| git_store.dfy | `GitStore` | trees, `create_git_tree`, `get_contents`, the `Repository` class |
| tree_synthesis.dfy | `Synthesis` | the `get_all_files` walk, blob creation, `get_folder_files` |
| tool_errors.dfy | `ToolErrors` | the tools' error messages |
| moves.dfy | `Moves` | `move_files_batch` validation, default message, resulting files |
| edits.dfy | `Edits` | the `edit_file` guard and replacement |
| naming.dfy | `Naming` | folder normalisation, `rename_file` target path |
| tools.dfy | `Tools` | the nine commit tools as methods on a `Repository` |
| rpc.dfy | `Rpc` | token extraction, client cache, `mcp_http_handler`, `to_dict` |

## Model

| member | source | states |
|---|---|---|
| Text.CountZeroIffAbsent | gitmcp.py:305-313 | `str.count` is zero exactly when the text does not occur, so the "not found" and "more than one" checks leave exactly one occurrence |
| Text.ReplaceSingle | gitmcp.py:312-321 | with exactly one non-overlapping occurrence, `replace` splices the new text in at the leftmost match |
| Text.OverlappingOccurrencesCountOnce | gitmcp.py:312 | `"aaa".count("aa")` is 1: occurrences are counted without overlap |
| Text.Split | gitmcp.py:333-334 | `split('\n')` yields one more part than there are newlines; no part contains a newline |
| Text.SplitJoin | gitmcp.py:1086-1088 | joining the parts of a split with the same separator gives back the string |
| Text.LinesChanged | gitmcp.py:333-346 | splicing one text for another changes the line count by the difference of their newline counts |
| Edits.EditPlan | gitmcp.py:305-321 | absent text gives NotFound; a count above one gives Ambiguous with that count; otherwise the single occurrence is replaced, and the length changes by `len(new) - len(old)` |
| Edits.EditLinesChanged | gitmcp.py:333-346 | `lines_changed` equals the newlines of the new text minus those of the old text |
| Edits.RepeatedTextIsAmbiguous | gitmcp.py:312-318 | "foo" in "foo bar foo" is refused with 2 occurrences |
| Edits.OverlappingTextIsReplaced | gitmcp.py:312-321 | "aa" in "aaa" passes the guard and the leftmost occurrence is replaced, giving "ba" |
| Naming.NormalizeFolder | gitmcp.py:728-730 | a path already ending in `/` is returned as it is; any other path gets `/` appended |
| Naming.GitkeepPath | gitmcp.py:728-731 | the marker path is the normalised folder followed by `.gitkeep`: it starts with that folder, ends with `/.gitkeep`, and is exactly `.gitkeep` longer |
| Naming.RenameKeepsDirectory | gitmcp.py:1086-1093 | the current name has no `/`; the path is directory + `/` + current name and the new path is directory + `/` + new name; a root file's new path is the new name |
| Naming.RenameMovesIffNameDiffers | gitmcp.py:1086-1101 | the new path equals the old path exactly when the new name equals the current name |
| GitStore.Kind | gitmcp.py:296 | `get_contents` finds a file exactly when the branch exists and holds that path; a directory listing never coincides with a file |
| GitStore.ToTreeConcat | gitmcp.py:1034-1044 | building a tree from two element lists overlays the second on the first |
| GitStore.ToTreeAt | gitmcp.py:1044 | with no repeated path, each element's mode and sha end up in the tree |
| GitStore.ContentViewUnion | gitmcp.py:443 | a tree built over a base tree describes the base's files overlaid with the new elements' files |
| GitStore.WritesViewAt | gitmcp.py:432-443 | with distinct paths, each change's content is what its path holds |
| GitStore.Repository.CreateBlob | gitmcp.py:434 | `create_git_blob` appends the content under a new sha and changes nothing else |
| GitStore.Repository.CreateCommit | gitmcp.py:446 | `create_git_commit` appends one commit with the given tree and parents |
| GitStore.Repository.EditRef | gitmcp.py:449 | `ref.edit` points the branch at the commit unconditionally |
| GitStore.Repository.Edit | gitmcp.py:1250 | `repo.edit(**params)` sets exactly the given settings |
| GitStore.Repository.PutFile | gitmcp.py:324-330 | `update_file` / `create_file`: one blob and one commit on the tip; the branch's files are the old files with that path set to the new content |
| Synthesis.CollectKept | gitmcp.py:658-683 | the walk plus filter yields each non-excluded file of the branch once, as a `100644` blob element with its existing sha |
| Synthesis.KeptTreeView | gitmcp.py:676-683 | the kept tree describes the old files minus the excluded paths |
| Synthesis.WriteBlobs | gitmcp.py:432-440 | one new blob per change, in order, and the element naming each |
| Synthesis.EntriesView | gitmcp.py:432-443 | the new elements, read through the extended store, describe exactly the changes (the later one winning) |
| Synthesis.ListFolder | gitmcp.py:788-806 | `get_folder_files` lists each file once: the path itself if it is a file, every file below it if it is a directory, nothing if the lookup fails |
| Moves.VerdictFromFirstFailure | gitmcp.py:966-996 | the validation loop accepts when every move passes, and otherwise reports the first failing move's check |
| Moves.CheckMoveIff | gitmcp.py:966-996 | one move passes exactly when its source and destination are new among the earlier moves, its source is a file, and its destination is a source so far or does not exist |
| Moves.ValidateMoves | gitmcp.py:962-996 | the loop's verdict is the specification's verdict; when accepted, the collected contents are the sources' contents in order |
| Moves.AcceptedIff | gitmcp.py:966-996 | validation passes exactly when sources are distinct, destinations are distinct, every source is a file, and each destination is an earlier-or-same source or does not exist |
| Moves.ValidationIsOrderSensitive | gitmcp.py:990-996 | `b→c, a→b` is accepted, while `a→b, b→c` is rejected with "Destination file already exists: b" |
| Moves.MoveSummary | gitmcp.py:955-959 | the default message starts "Move files: "; with more than three moves it ends " more"; an empty batch gives exactly "Move files: " |
| Moves.ShownLines | gitmcp.py:956-957 | the message lists at most the first three moves, each as "source → destination", in order |
| Moves.MoveSummaryText | gitmcp.py:955-959 | for every batch the message is "Move files: " followed by the first one, two or three moves joined by ", ", then " and N more" for the N moves beyond the third |
| Moves.MoveSummarySingle | gitmcp.py:956-959 | one move is summarised as "Move files: source → destination" |
| Moves.MovedFilesKeys | gitmcp.py:1012-1041 | after the moves the paths are the old paths minus the sources plus the destinations |
| Moves.MovedFilesContent | gitmcp.py:1003-1041 | after an accepted batch each destination holds its source's content; non-sources are untouched; a source that is not a destination is gone |
| Moves.DestinationsFresh | gitmcp.py:966-996 | under an accepted batch no destination is a kept file and destinations are distinct, so the tree elements name each path once |
| RepoSettings.PlanUpdate | gitmcp.py:1210-1244 | a parameter is set exactly for each requested value that differs from the current one, with the requested value; the change lines are those of the wanted fields in the tool's order, one per parameter |
| RepoSettings.PlannedStep | gitmcp.py:1214-1244 | deciding one more field keeps the parameters and change lines in step with the plan |
| RepoSettings.ApplyPlan | gitmcp.py:1250 | editing with the plan gives every field its requested value, and keeps every field that was not requested |
| RepoSettings.EmptyPlanIffSatisfied | gitmcp.py:1246-1247 | the plan is empty exactly when every requested value is already in place |
| GitStore.OldCommitKept | gitmcp.py:446-449 | appending commits and blobs after the existing ones leaves every existing commit describing the same files |
| Tools.CommitTree | gitmcp.py:446-449 | one commit on the previous tip, the branch moved to it, blobs and settings unchanged. Every other branch keeps its files |
| Tools.CommitFile | gitmcp.py:324-330 | one commit on the tip that sets one path; the store gains exactly the new content. Every other branch keeps its files, and the settings are unchanged. |
| Tools.EditFile | gitmcp.py:294-352 | missing file: "Failed to edit file"; directory: crash; guard failures: their errors with nothing written; otherwise one commit with the replaced content, and the line and character deltas. On success the store gains exactly the new content. Every other branch keeps its files, and the settings are unchanged. |
| Tools.BatchUpdateFiles | gitmcp.py:426-461 | missing branch: an error with nothing written; otherwise one commit whose files are the old files overlaid with the changes (the later change winning), written paths `100644`, other entries untouched, `files_changed` = number of changes. The store gains the changes' contents in order. Every other branch keeps its files, and the settings are unchanged. |
| Tools.BatchView | gitmcp.py:432-443 | the tree built over the tip's tree describes the old files with the writes applied |
| Tools.ToTreeModes | gitmcp.py:1023-1041 | elements that are all `100644` build a tree of regular files |
| Tools.DeleteFilesBatch | gitmcp.py:646-704 | missing branch: an error; otherwise one commit whose files are the old files minus the listed paths, all re-entered as `100644`, and `files_deleted` is the number of paths asked for, existing or not. No blob is added. Every other branch keeps its files, and the settings are unchanged. |
| Tools.CommitMoves | gitmcp.py:998-1050 | one commit whose elements name each path once, all regular-file blobs, and whose files are the moved files. The store gains the moved contents in order. Every other branch keeps its files, and the settings are unchanged. |
| Tools.KeptThenAdded | gitmcp.py:1012-1041 | kept elements followed by destination elements name each path once |
| Tools.MovedView | gitmcp.py:1003-1044 | the kept tree plus the destination elements describe exactly the moved files |
| Tools.SingleMove | gitmcp.py:883-911 | a single move removes the source and adds the destination with the source's content |
| Tools.MoveFile | gitmcp.py:851-932 | missing source: "Failed to move file"; directory: crash; existing destination: "Destination file '…' already exists"; otherwise one commit where the destination holds the source's content and the source is gone. The store gains exactly the source's content. Every other branch keeps its files, and the settings are unchanged. |
| Tools.MoveFilesBatch | gitmcp.py:953-1062 | a rejected batch returns the validation error with nothing written; a directory source crashes; an accepted batch makes one commit whose files are the moved files, all `100644`. The store gains the sources' contents in move order. Every other branch keeps its files, and the settings are unchanged. |
| Tools.CommitBatch | gitmcp.py:998-1050 | once every move passed: one commit on the tip whose files are the moved files, all regular files; the store gains the sources' contents in move order; every other branch keeps its files; settings unchanged |
| Tools.RenameFile | gitmcp.py:1084-1182 | same name: refused before any lookup; missing file: "Failed to rename file"; taken new path: "A file named '…' already exists"; otherwise one commit moving the file to directory + `/` + new name. The store gains exactly the file's content. Every other branch keeps its files, and the settings are unchanged. |
| Tools.CreateFolder | gitmcp.py:726-757 | a missing branch or an existing marker is a GitHub error; otherwise one commit adding `<folder>/.gitkeep` with the fixed text. The store gains exactly the marker text. Every other branch keeps its files, and the settings are unchanged. |
| Tools.DistinctCard | gitmcp.py:808-826 | a listing without repeats counts its files |
| Tools.DeleteFolder | gitmcp.py:778-828 | an empty listing: "Folder '…' not found or is empty" with nothing written; otherwise one commit removing exactly the listed files, reporting their number. No blob is added. Every other branch keeps its files, and the settings are unchanged. |
| Tools.UpdateRepoSettings | gitmcp.py:1209-1274 | nothing requested differs: no edit; otherwise one edit after which every field has its target value, with the change lines reported and no commit or ref touched |
| Rpc.ToDict | remote_server.py:134-139 | always `jsonrpc` "2.0" and `id`, and exactly one of `error` (when truthy) or `result` |
| Rpc.FalsyErrorSendsResult | remote_server.py:134-139 | a falsy error (None, False, 0, "", [], {}) is dropped and the result is sent |
| Rpc.TokenFrom | remote_server.py:228-237 | `Bearer ` + token gives the token; a `github_pat_` header is used verbatim; otherwise (or when that is empty) the environment's non-empty token; else none |
| Rpc.BearerRoundTrip | remote_server.py:230-231 | a bearer header carrying a non-empty token yields exactly that token |
| Rpc.BareTokenIgnored | remote_server.py:228-237 | a header with neither prefix is ignored in favour of the environment |
| Rpc.ClientCache.Get | remote_server.py:53-64 | a cached client is returned without a new check; an accepted token is cached; a rejected one leaves the cache unchanged and fails |
| Rpc.RenameFileNotRegistered | remote_server.py:142-161 | `rename_file` is not among the registered tools |
| Rpc.Describe | remote_server.py:277-283 | the description is the first line of the stripped docstring (or "Execute name"), with exactly one trailing colon removed |
| Rpc.ToolList | remote_server.py:274-299 | one entry per registered tool, in registration order, with its description |
| Rpc.ListTools | remote_server.py:276-293 | the loop builds exactly that list |
| Rpc.Call | remote_server.py:302-348 | a tool runs only when the name is a registered string |
| Rpc.Respond | remote_server.py:220-371 | invalid JSON: -32700 with no id; no token: -32002 "Authorization required…" echoing the id; rejected token: -32002 "Invalid GitHub token…"; non-object body: -32603 with no id; tool output only after authentication, for `tools/list` or `tools/call`; an authenticated `tools/list` is answered with `ToolList(registry)`, and the `tools/call` paths by the lemmas below: a result is dumped, an `"error"` result becomes "Error: …", a raising tool or non-object `arguments` is -32603 "Tool execution failed: " echoing the id, an unknown name is -32601 |
| Rpc.ToolErrorIsSuccess | remote_server.py:322-340 | a tool returning `{"error": e}` produces a successful response whose text is "Error: " + e |
| Rpc.ToolResultIsDumped | remote_server.py:317-340 | a registered tool whose result is not an object with an `"error"` key produces a successful response, echoing the id, whose content is that result as `json.dumps` renders it |
| Rpc.ToolRaisedIsInternal | remote_server.py:305-348 | a registered tool that raises, or whose `arguments` are not an object, is -32603 "Tool execution failed: ", echoing the id |
| Rpc.NonObjectParamsInternal | remote_server.py:302-371 | `tools/call` with `params` that is not an object fails at `params.get` and is answered -32603 "Internal error: " with no id |
| Rpc.UnknownToolNotFound | remote_server.py:309-315 | `tools/call` of an unregistered name is -32601 "Tool not found: name", echoing the id |
| Rpc.RenameFileUnreachable | remote_server.py:309-315 | through the HTTP endpoint `rename_file` is -32601 "Tool not found: rename_file" |
| Rpc.UnknownMethodNotFound | remote_server.py:350-356 | any other method is -32601 "Method not found: method", echoing the id |
| Rpc.ToolsListIsListed | remote_server.py:274-299 | an authenticated `tools/list` is answered with one entry per registered tool, `ToolList(registry)`, echoing the id |
| Rpc.NonStringMethodNotFound | remote_server.py:268-356 | a method that is not a string is -32601 "Method not found: " followed by its `str()`; a missing method gives "Method not found: None" |
| Rpc.UnhashableToolNameInternal | remote_server.py:304-309 | a tool name that is a list or an object cannot be looked up in `MCP_TOOLS` and is -32603 "Internal error: " with no id |
| Rpc.HandleHttp | remote_server.py:220-371 | the handler answers as `Respond` does; the cache gains the token exactly when the body parsed, a token was found and GitHub accepted it |

## Left out

- ToTree: a path listed twice in `create_git_tree`'s elements is taken to keep the later element. Nothing in the tools fixes this, and GitHub might refuse the request or keep the first element. It is an assumption of the model.
- BatchUpdateFiles: "the later change wins" for a path repeated in `changes` rests on the ToTree assumption above. The model does not cover GitHub refusing such a batch.
- Blobs are not content-addressed: `create_git_blob` always gets a new sha, so two equal contents get two shas. No contract depends on sha equality.
- The GitHub API (PyGithub) beyond the abstract `Repository`. Network failures, permissions and rate limits are not modelled; the only GitHub failures modelled are a missing branch and a missing path.
- `create_file` on a path that already exists is modelled as a GitHub error, as the contents API refuses it.
- `repo.edit` never fails in the model. A rejected edit, such as a name that is already taken, is not modelled.
- `ref.edit` is an unconditional assignment. The race between a tool's existence checks and its ref update is concurrency and is not modelled.
- The bare `except: pass` inside the `get_all_files` walks. The walk is taken to list the branch's files completely.
- base64 and UTF-8 decoding of file bodies: contents are strings throughout.
- A path that is both a file and a directory prefix of another file cannot occur in a real git tree. The model does not rule it out.
- The text of a `GithubException` or of any other exception after "Failed to …: ", "Tool execution failed: " and "Internal error: ": the model keeps only the prefix.
- The single-call tools are not modelled: `list_repos`, `create_repo`, `delete_repo`, `get_repo_structure`, `read_file`, `write_file`, `create_branch`, `search_code`, `create_pull_request`, `delete_file` and `init_github_client`. They only forward one library call.
- The success dictionaries are reduced to the fields that depend on the tool's logic. URLs, `branch` echoes and the refreshed settings of `update_repo_settings` are left out.
- Rpc.Show: Python's `str()` of a JSON list or object inside an error message is rendered as a placeholder (`[...]`, `{...}`), not as Python's repr. Floating-point JSON numbers are not modelled.
- Rpc.Respond: `json.dumps(result, indent=2)` is kept as the value to be rendered (`Dumped`), not as text. The constant `inputSchema` of each tool entry is omitted.
- Rpc.Respond: the token is assumed to get the same answer from GitHub in `get_github_client` and in the handler's own `get_user()` call (one `accepted` flag).
- The GET `/mcp/tools` endpoint, the SSE endpoint, the OAuth stub, CORS and app setup, logging, and the `os.environ` write in `setup_github_env`: these are I/O and framework code.
- Rpc.HandleHttp: a body that cannot be read (`body` is `None`) is always answered -32700. A body that is not valid UTF-8 makes `request.json()` raise `UnicodeDecodeError`, which is not a `JSONDecodeError`, so the handler answers it -32603 "Internal error" with no id. The model does not tell the two failures apart, because reading the request is framework I/O.
- A change or move dictionary missing its `path`, `content`, `source` or `destination` key raises `KeyError`. Changes and moves are typed records in the model.
- The docstrings of the registered tools live in the tool module. The model takes them as the `doc` field of each registered tool.
