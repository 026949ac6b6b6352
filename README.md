# save-and-restore-api in Dafny

This project models the Python client of the EPICS save-and-restore service
(`save_and_restore_api`) and its command-line tools.

- **Client base** (`ApiBase`). The part of the client that does no I/O:
  - the error taxonomy and its messages;
  - credentials;
  - decoding of a received response;
  - classification of whatever a request raised;
  - the keyword dictionary handed to the HTTP transport;
  - one request preparer per remote operation, giving the method, the path,
    and the JSON body and/or query.
- **Blocking client** (`ApiThreads`). A class `SaveRestoreAPI`:
  - its client is opened and closed;
  - its session credential is set and cleared;
  - `send_request` yields either a decoded value or exactly one classified
    error;
  - every operation wrapper routes its prepared pieces into the body, query
    and credential slots.
- **Service** (`NodeStore`). The save-and-restore service as the tools use it:
  nodes are looked up by path, and folders are added under an existing parent.
- **Command-line tools** (`Cli`):
  - the PV-list loaders of autosave files, over the lines of the file;
  - the PV-list append;
  - splitting a node path into folders and a name;
  - the lookup of a node by path and type;
  - the walk that creates missing folders.

  The helpers `add_to_pv_list`, `load_pvs_from_autosave_file` and
  `split_config_name` of `tools/upload.py` (lines 29-51) are character-for-character
  copies of those of `tools/cli.py` (lines 26-48). The same members model them.

Supporting modules:
- `Wrappers`: `Option` and `Result`.
- `Json`: decoded JSON values, with Python truthiness and `str()`.
- `Strings`: the Python string operations used.
  - `split` with a separator, and `join`;
  - `strip`, `startswith`, ASCII `upper`;
  - `str(int)` and `repr(str)`.

What the transport and the environment do is a parameter of the model:
- The HTTP transport (`httpx.Client.request`) is a function `Transport`. It
  maps the client, the method, the path and the keyword dictionary to a
  response record or an exception kind.
- A response is a record holding the status, whether the body is empty, the
  parsed JSON (if any), the text and the URL.
- The transport's status check follows `httpx`: non-2xx statuses fail.
- The service behind the command-line tools is the class `NodeStore.Store`.
- Files are sequences of lines.

Section 15.5 of RFC 9110 defines the 4xx statuses as the client-error class.
The code classifies every failing status below 500 as a client error, 1xx and
3xx included (`_api_base.py:127`), and the model follows the code. So a 1xx or
3xx status that fails the transport's check also becomes `HTTPClientError`.

## Model

| member | source | states |
|---|---|---|
| ApiBase.AuthGen | src/save_and_restore_api/_api_base.py:53-59 | the credential carries the given user name and password; being a function it touches no session state |
| ApiBase.TimeoutMessage | src/save_and_restore_api/_api_base.py:20-24 | the timeout message is "Request timeout: " followed by the exception text, which can be read back |
| ApiBase.RequestErrorMessage | src/save_and_restore_api/_api_base.py:122-123 | the request-error message is "HTTP request error: " followed by the exception text |
| ApiBase.ClientErrorMessage | src/save_and_restore_api/_api_base.py:142 | the client-error message is the decimal status and ": ", then the response text read back verbatim, then a space and the request URL |
| ApiBase.RequestFailedMessage | src/save_and_restore_api/_api_base.py:27-34 | "Request failed: " then, for a dictionary, the formatted `msg` when it is truthy and "(no error message)" when it is falsy or missing; for any other reply its `str()`: a string itself, or "(no error message)" when it is empty; None "None"; a number its decimal text; a boolean "True" or "False"; a list its rendering, or "(no error message)" when that is empty |
| ApiBase.ZeroReplyShown | src/save_and_restore_api/_api_base.py:29-31 | the reply 0 gives "Request failed: 0": the test for an empty message is on the text, not on the reply |
| ApiBase.FailureText | src/save_and_restore_api/_api_base.py:29-31 | a dictionary's truthy `msg` is formatted as `str()` does, so a non-empty string `msg` is itself; a falsy or missing `msg` gives "(no error message)"; any other reply gives its `str()` (a string itself, None "None", a number its decimal text, a boolean "True"/"False", a list its rendering), with "(no error message)" in place of an empty text |
| ApiBase.ProcessResponse | src/save_and_restore_api/_api_base.py:101-109 | fails, with the status error of that response, exactly when the status is not 2xx, so nothing is decoded; an empty body gives ""; otherwise the parsed JSON, or the raw text when the body is not JSON |
| ApiBase.ResponseDetail | src/save_and_restore_api/_api_base.py:128-141 | the detail of a client error: "" for an empty body or non-dictionary JSON; for a dictionary, `detail`, else `error`, else the raw text; the raw text when the body is not JSON |
| ApiBase.ProcessCommException | src/save_and_restore_api/_api_base.py:111-145 | a timeout becomes RequestTimeoutError carrying {"method", "params"} (checked before the general request error); another request error becomes HTTPRequestError; a status error becomes HTTPClientError when a response came back with status below 500, and HTTPServerError otherwise; any other exception is re-raised unchanged |
| ApiBase.ClientErrorNamesStatusAndUrl | src/save_and_restore_api/_api_base.py:125-143 | a status error with status below 500 is classified as a client error whose message names the status first and the URL last |
| ApiBase.RequestKwargs | src/save_and_restore_api/_api_base.py:147-165 | keys only among json/params/headers/data/timeout/auth; json, params, headers and data are present exactly when their argument is truthy, holding it; timeout is present exactly when one is given; auth is present exactly when the method is not GET (case-insensitively) and a per-call or session credential exists, holding the per-call one first |
| ApiBase.RequestKwargsDetermined | src/save_and_restore_api/_api_base.py:150-164 | any dictionary obeying the per-key rules is the keyword dictionary `RequestKwargs` defines |
| ApiBase.PrepareNodeAdd | src/save_and_restore_api/_api_base.py:201-208 | fails with RequestParameterError exactly when the node type is neither FOLDER nor CONFIGURATION; otherwise PUT /node, query {"parentNodeId"}, and a body holding every extra keyword plus `name` and `nodeType` |
| ApiBase.IdentifiersInterpolatedVerbatim | src/save_and_restore_api/_api_base.py:192-286 | for every operation that puts an identifier into its path, the method is fixed and the identifier is read back unchanged between the path's fixed prefix and suffix |
| ApiBase.NoEscaping | src/save_and_restore_api/_api_base.py:192-236 | identifiers are not escaped: one ending in "/children" reaches the children endpoint, and one holding "&" adds query parameters |
| ApiBase.ConfigCreateDefaultsData | src/save_and_restore_api/_api_base.py:235-239 | the configuration body has exactly the node and the data, and a falsy data is sent as an empty dictionary |
| ApiBase.FixedEndpoints | src/save_and_restore_api/_api_base.py:171-297 | the operations without arguments are GET /, GET /version, GET /tags and GET /snapshots |
| ApiBase.ArgumentsPassedUnchanged | src/save_and_restore_api/_api_base.py:183-311 | every other preparer has a fixed method and path and passes its arguments unchanged, as the whole body or under their own names; None values are kept in take-snapshot-save's query; restore-node sends the node id as its query |
| ApiThreads.CallKwargs | src/save_and_restore_api/_api_base.py:161-164 | a GET never carries a credential; any other method carries the per-call credential if given, else the session's; with neither there is none |
| ApiThreads.SendOutcome | src/save_and_restore_api/_api_threads.py:21-40 | succeeds exactly when a client is open and the transport answered with a 2xx status, and then gives the decoded body; a failure is always a classified error, never a parameter or request-failed error |
| ApiThreads.TimeoutIsCheckedFirst | src/save_and_restore_api/_api_base.py:119-123 | a transport timeout becomes a timeout error with the method and the body, not a request error |
| ApiThreads.StatusSplitAt500 | src/save_and_restore_api/_api_base.py:125-145 | a response with a failing status is a client error below 500, carrying the body's detail, and a server error from 500 on |
| ApiThreads.UnhandledOnlyForForeignExceptions | src/save_and_restore_api/_api_threads.py:37-38 | only an exception of a kind outside the classified ones, or a missing client, escapes unclassified |
| ApiThreads.SaveRestoreAPI.constructor | src/save_and_restore_api/_api_base.py:47-51 | the session holds the base URL and the timeout, and has neither a client nor a credential |
| ApiThreads.SaveRestoreAPI.AuthSet | src/save_and_restore_api/_api_base.py:61-67 | the session credential becomes the generated one; the client is untouched |
| ApiThreads.SaveRestoreAPI.AuthClear | src/save_and_restore_api/_api_base.py:69-73 | the session credential is cleared; the client is untouched |
| ApiThreads.SaveRestoreAPI.Open | src/save_and_restore_api/_api_threads.py:7-8 | the client becomes one bound to the session's base URL and timeout |
| ApiThreads.SaveRestoreAPI.Close | src/save_and_restore_api/_api_threads.py:10-12 | an open client is forgotten; with no client the call raises and the session is unchanged |
| ApiThreads.SaveRestoreAPI.Enter | src/save_and_restore_api/_api_threads.py:14-16 | opens the client and returns this very session |
| ApiThreads.SaveRestoreAPI.Exit | src/save_and_restore_api/_api_threads.py:18-19 | closes, with the effect of Close; what the managed block raised still leaves the `with` statement, unless the close itself raises, whose exception replaces it |
| ApiThreads.SaveRestoreAPI.PrepareRequest | src/save_and_restore_api/_api_base.py:147-165 | the dictionary built key by key is `RequestKwargs` of the arguments and the session credential |
| ApiThreads.SaveRestoreAPI.SendRequest | src/save_and_restore_api/_api_threads.py:21-40 | the result is `SendOutcome` of the session's client and credential; the received response reaches the classifier only when one came back |
| ApiThreads.SaveRestoreAPI.InfoGet | src/save_and_restore_api/_api_threads.py:46-53 | sends the prepared GET / with nothing else |
| ApiThreads.SaveRestoreAPI.VersionGet | src/save_and_restore_api/_api_threads.py:55-62 | sends the prepared GET /version with nothing else |
| ApiThreads.SaveRestoreAPI.Search | src/save_and_restore_api/_api_threads.py:68-80 | sends what the search preparer gives, its third part as the query, with no credential |
| ApiThreads.SaveRestoreAPI.Help | src/save_and_restore_api/_api_threads.py:86-93 | sends what the help preparer gives, its third part as the query, with no credential |
| ApiThreads.SaveRestoreAPI.Login | src/save_and_restore_api/_api_threads.py:99-106 | sends the login body as the JSON body, with no per-call credential |
| ApiThreads.SaveRestoreAPI.NodeGet | src/save_and_restore_api/_api_threads.py:112-119 | sends the prepared GET with no body, query or credential |
| ApiThreads.SaveRestoreAPI.NodesGet | src/save_and_restore_api/_api_threads.py:121-128 | sends the identifier list as the JSON body of a GET, with no credential |
| ApiThreads.SaveRestoreAPI.NodeAdd | src/save_and_restore_api/_api_threads.py:130-140 | an invalid node type is returned as the preparer's error, with no request sent and no reclassification; otherwise the query goes to the query slot, the body to the JSON body and the caller's credential along |
| ApiThreads.SaveRestoreAPI.NodeDelete | src/save_and_restore_api/_api_threads.py:142-150 | sends the prepared DELETE with the caller's credential |
| ApiThreads.SaveRestoreAPI.NodesDelete | src/save_and_restore_api/_api_threads.py:152-160 | sends the identifier list as the JSON body with the caller's credential |
| ApiThreads.SaveRestoreAPI.NodeGetChildren | src/save_and_restore_api/_api_threads.py:162-169 | sends the prepared GET with nothing else |
| ApiThreads.SaveRestoreAPI.NodeGetParent | src/save_and_restore_api/_api_threads.py:171-178 | sends the prepared GET with nothing else |
| ApiThreads.SaveRestoreAPI.ConfigGet | src/save_and_restore_api/_api_threads.py:184-192 | sends the prepared GET with nothing else |
| ApiThreads.SaveRestoreAPI.ConfigCreate | src/save_and_restore_api/_api_threads.py:194-215 | sends the configuration body as the JSON body with the caller's credential |
| ApiThreads.SaveRestoreAPI.ConfigUpdate | src/save_and_restore_api/_api_threads.py:217-228 | sends the configuration body as the JSON body with the caller's credential |
| ApiThreads.SaveRestoreAPI.TagsGet | src/save_and_restore_api/_api_threads.py:234-241 | sends the prepared GET with nothing else |
| ApiThreads.SaveRestoreAPI.TagsAdd | src/save_and_restore_api/_api_threads.py:243-251 | sends the tag body as the JSON body with the caller's credential |
| ApiThreads.SaveRestoreAPI.TagsDelete | src/save_and_restore_api/_api_threads.py:253-261 | sends the tag body as the JSON body with the caller's credential |
| ApiThreads.SaveRestoreAPI.TakeSnapshotGet | src/save_and_restore_api/_api_threads.py:267-276 | sends the prepared GET with nothing else |
| ApiThreads.SaveRestoreAPI.TakeSnapshotSave | src/save_and_restore_api/_api_threads.py:278-289 | sends name and comment only as the query, with the caller's credential |
| ApiThreads.SaveRestoreAPI.SnapshotGet | src/save_and_restore_api/_api_threads.py:295-302 | sends the prepared GET with nothing else |
| ApiThreads.SaveRestoreAPI.SnapshotAdd | src/save_and_restore_api/_api_threads.py:304-314 | sends the snapshot body as the JSON body with the caller's credential |
| ApiThreads.SaveRestoreAPI.SnapshotUpdate | src/save_and_restore_api/_api_threads.py:316-324 | sends the snapshot body as the JSON body with the caller's credential |
| ApiThreads.SaveRestoreAPI.SnapshotsGet | src/save_and_restore_api/_api_threads.py:326-333 | sends the prepared GET with nothing else |
| ApiThreads.SaveRestoreAPI.RestoreNode | src/save_and_restore_api/_api_threads.py:339-348 | sends the node id as the query with the caller's credential |
| ApiThreads.SaveRestoreAPI.RestoreItems | src/save_and_restore_api/_api_threads.py:350-360 | sends the snapshot items as the JSON body with the caller's credential |
| ApiThreads.SaveRestoreAPI.Compare | src/save_and_restore_api/_api_threads.py:366-377 | sends what the compare preparer gives, its third part as the query, with no credential |
| ApiThreads.SaveRestoreAPI.StructureMove | src/save_and_restore_api/_api_threads.py:383-393 | sends the move preparer's body and query with the caller's credential |
| ApiThreads.SaveRestoreAPI.StructureCopy | src/save_and_restore_api/_api_threads.py:395-405 | sends the copy preparer's body and query with the caller's credential |
| ApiThreads.SaveRestoreAPI.StructurePathGet | src/save_and_restore_api/_api_threads.py:407-414 | sends what the path preparer gives with nothing else |
| ApiThreads.SaveRestoreAPI.StructurePathNodes | src/save_and_restore_api/_api_threads.py:416-425 | sends what the path-nodes preparer gives, its third part as the query, with no credential |
| ApiThreads.ReadOperationsSendNoCredential | src/save_and_restore_api/_api_threads.py:46-333 | none of the eleven read operations (`get_info`, `get_version`, `node_get`, `nodes_get`, `node_get_children`, `node_get_parent`, `config_get`, `tags_get`, `take_snapshot_get`, `snapshot_get`, `snapshots_get`) hands a credential to the transport, even when the session has one |
| ApiThreads.NodeMutationsForwardCredential | src/save_and_restore_api/_api_threads.py:130-261 | `node_add`, `node_delete`, `nodes_delete`, `config_create`, `config_update`, `tags_add` and `tags_delete` forward the caller's credential, or the session's when the caller gives none |
| ApiThreads.SnapshotMutationsForwardCredential | src/save_and_restore_api/_api_threads.py:278-360 | `take_snapshot_save`, `snapshot_add`, `snapshot_update`, `restore_node` and `restore_items` forward the caller's credential, or the session's when the caller gives none |
| ApiThreads.NodeAddRouting | src/save_and_restore_api/_api_threads.py:137-140 | `node_add` sends a JSON body (never empty, as it holds `name` and `nodeType`) and the query {"parentNodeId"} |
| ApiThreads.TakeSnapshotSaveAlwaysSendsQuery | src/save_and_restore_api/_api_threads.py:286-289 | `take_snapshot_save` always sends the query with both `name` and `comment`, even if both are None, and no JSON body |
| Json.ValueList.Append | src/save_and_restore_api/tools/cli.py:27 | the list grows by exactly one value at its end |
| Strings.JoinSplit | src/save_and_restore_api/tools/cli.py:471-472 | joining the pieces of a split with its separator gives back the string |
| Strings.SplitJoin | src/save_and_restore_api/tools/cli.py:471-472 | splitting a join of separator-free pieces gives back the pieces |
| Strings.SplitLeadingSeparator | src/save_and_restore_api/tools/cli.py:471 | a leading separator contributes one empty first piece and the rest splits as before |
| Strings.StripBounds | src/save_and_restore_api/tools/cli.py:33 | `strip` removes exactly the leading and trailing whitespace: the result is a slice with whitespace outside it and non-whitespace ends |
| Strings.Upper | src/save_and_restore_api/_api_base.py:161 | each ASCII lower-case letter becomes upper case and every other character is kept |
| Strings.NatToStringInjective | src/save_and_restore_api/_api_base.py:142 | different numbers have different decimal texts |
| Strings.ReprPlain | src/save_and_restore_api/_api_base.py:204 | the repr of printable ASCII text without quotes or backslashes is that text between single quotes |
| NodeStore.UidFor | src/save_and_restore_api/_api_base.py:45 | the identifiers the service assigns are non-empty and never the root folder's |
| NodeStore.FindUid | src/save_and_restore_api/tools/cli.py:462 | in a valid store a node's identifier finds exactly that node |
| NodeStore.NodesAtMember | src/save_and_restore_api/tools/cli.py:457 | every node the path lookup returns is a stored node at that path |
| NodeStore.NodesAtComplete | src/save_and_restore_api/tools/cli.py:457 | every stored node at a path is returned by the lookup of that path |
| NodeStore.AppendFolder | src/save_and_restore_api/tools/cli.py:489-490 | a folder appended with the next identifier keeps the store valid and is then found under that identifier at its path |
| NodeStore.Store.AddFolder | src/save_and_restore_api/tools/cli.py:489-490 | adding a folder appends one FOLDER node with the next identifier and the path of its parent plus "/" and its name |
| Cli.PvEntry | src/save_and_restore_api/tools/cli.py:26-27 | the PV-list entry is the dictionary with the single key `pvName` holding the name |
| Cli.AddToPvList | src/save_and_restore_api/tools/cli.py:26-27 | exactly one `{"pvName": name}` is appended and earlier entries are unchanged |
| Cli.PvNameOf | src/save_and_restore_api/tools/cli.py:33-39 | a name a line contributes is non-empty and has no space |
| Cli.PvNameOfCharacterized | src/save_and_restore_api/tools/cli.py:33-39 | a line contributes nothing exactly when its stripped text is empty or starts with "#" or "<"; otherwise it contributes the stripped text up to its first space, which starts with neither whitespace nor "#" nor "<" |
| Cli.AutosavePvNames | src/save_and_restore_api/tools/cli.py:30-40 | there are never more names than lines, and every name is non-empty without a space |
| Cli.AutosaveConcat | src/save_and_restore_api/tools/cli.py:32-39 | the names of two consecutive parts of a file are the first part's names followed by the second's: file order is kept |
| Cli.AutosaveKeepsEveryName | src/save_and_restore_api/tools/cli.py:32-39 | every name a line contributes is among the names loaded |
| Cli.LoadPvsFromAutosaveFile | src/save_and_restore_api/tools/cli.py:30-40 | the loop yields exactly `AutosavePvNames` of the lines |
| Cli.PvEntries | src/save_and_restore_api/tools/cli.py:522 | one `{"pvName": name}` entry per name, in order |
| Cli.LoadPvsFromFile | src/save_and_restore_api/tools/cli.py:511-525 | the autosave format gives the entries of `AutosavePvNames` of the lines; any other format fails with ValueError "Unsupported file format: {format}." |
| Cli.NormalizePath | src/save_and_restore_api/tools/cli.py:469-470 | the path starts with "/", and is unchanged when it already did |
| Cli.SplitNodePath | src/save_and_restore_api/tools/cli.py:465-473 | neither the folders nor the name contain "/" |
| Cli.SplitConfigName | src/save_and_restore_api/tools/cli.py:43-48 | computes exactly what `SplitNodePath` computes |
| Cli.SplitNodePathJoin | src/save_and_restore_api/tools/cli.py:465-473 | "/" followed by the folders and the name joined with "/" is the normalized path |
| Cli.PartsHaveNoSlash | src/save_and_restore_api/tools/cli.py:471-472 | folders and a name without "/" make a list of pieces without "/" |
| Cli.SplitNodePathOfSlashed | src/save_and_restore_api/tools/cli.py:471-473 | a path with a leading "/" drops the empty first piece: the folders are the remaining pieces but the last, which is the name |
| Cli.SplitNodePathOfJoin | src/save_and_restore_api/tools/cli.py:465-473 | folders and a name without "/" are recovered from the path they make |
| Cli.SplitNodePathLeadingSlash | src/save_and_restore_api/tools/cli.py:469-470 | a path without a leading "/" splits as that path with one |
| Cli.OfType | src/save_and_restore_api/tools/cli.py:458 | the filtered nodes all have the type and come from the list; none are left exactly when no node has the type |
| Cli.OfTypeHead | src/save_and_restore_api/tools/cli.py:458-460 | the first node of the type heads the filtered list |
| Cli.CheckNodeExists | src/save_and_restore_api/tools/cli.py:447-462 | an unsupported type fails with ValueError first; a client error from the lookup means no nodes, another error passes through; otherwise None exactly when no node has the type |
| Cli.CheckNodeExistsFirstMatch | src/save_and_restore_api/tools/cli.py:458-460 | the identifier returned is that of the first node of the type |
| Cli.LookupFolderSound | src/save_and_restore_api/tools/cli.py:452-462 | in a valid store the folder lookup returns a stored folder at that path with a non-empty identifier, and None exactly when the path holds no folder |
| Cli.PrefixPathIsJoin | src/save_and_restore_api/tools/cli.py:486 | after k folders the accumulated path is "/" followed by the first k folders joined with "/" |
| Cli.AddsOnlyMissingFoldersPrefix | src/save_and_restore_api/tools/cli.py:485-491 | a walk only appends: the store it started from is kept as a prefix |
| Cli.AddsOnlyMissingFoldersAt | src/save_and_restore_api/tools/cli.py:485-491 | every node a walk added is the folder `folders[j]` at the path of the first j+1 folders, under the root for j = 0 and otherwise under a folder already stored at the path of the first j folders, and no folder was at its path when it was added |
| Cli.AddsOnlyMissingFoldersMeaning | src/save_and_restore_api/tools/cli.py:485-491 | a walk's history keeps the earlier store as a prefix, and each later node is the walk's folder at its accumulated path, under the previous folder of the walk (the root for the first), that had no folder at its path when it was added |
| Cli.OutOfPlaceFoldersRejected | src/save_and_restore_api/tools/cli.py:485-491 | for the folders ["a", "b"], adding "b" at "/b" and then "b" at "/a/b" below it is not a history the walk can produce |
| Cli.AddsOnlyMissingFoldersAppend | src/save_and_restore_api/tools/cli.py:488-490 | adding a walk's folder that is missing at its path keeps the store's history of adding only missing folders |
| Cli.ParentPathOf | src/save_and_restore_api/tools/cli.py:484-491 | the walk's parent, the root with the empty path or a folder stored at the walked path, is known to the service under that path, which `node_add` demands |
| Cli.FolderStepFindsOrAdds | src/save_and_restore_api/tools/cli.py:486-491 | one step of the walk in a valid store ends at a stored folder at the extended path and carries its identifier on as parent and result; the store stays valid, is unchanged when a folder is already at the path, and otherwise gains exactly one FOLDER named after the folder, under the previous parent, at that path |
| Cli.FindOrAddFolder | src/save_and_restore_api/tools/cli.py:487-490 | the lookup of the walked path as a folder and the `node_add` when none is there change the store exactly as `FolderStep` says and return the identifier it carries on |
| Cli.FolderStepShape | src/save_and_restore_api/tools/cli.py:485-491 | a step with the next folder moves the walk's shape from i - 1 to i folders |
| Cli.FolderStepKeepsHistory | src/save_and_restore_api/tools/cli.py:486-490 | a step with the next folder keeps the history of adding only the walk's missing folders, each in its place |
| Cli.WalkUpToShape | src/save_and_restore_api/tools/cli.py:484-491 | the walk over the first i folders, from the root with the empty path, has the shape of the walk after i folders |
| Cli.WalkUpToHistory | src/save_and_restore_api/tools/cli.py:484-491 | the walk over the first i folders adds only folders missing at their accumulated path, each named after its folder and under the previous folder of the walk (the root for the first) |
| Cli.WalkUpToParent | src/save_and_restore_api/tools/cli.py:484-491 | the walk's parent is always the root with the empty path or a stored folder at the walked path, as `node_add` needs |
| Cli.WalkFolders | src/save_and_restore_api/tools/cli.py:484-491 | the loop changes the store and returns the identifier exactly as the walk over all the folders, `WalkUpTo`, does |
| Cli.CreateMissingFolders | src/save_and_restore_api/tools/cli.py:476-492 | nothing is added unless creation is truthy and the lookup of the whole given path as a folder found none; only the walk's missing folders are added, each at its accumulated path under the previous one; a walk over a non-empty folder list returns the folder at the joined folder path |
| Cli.AsWrittenMissesExistingParent | src/save_and_restore_api/tools/cli.py:482 | with folder "/a" stored and creation falsy, "/a/cfg" gets no parent folder |
| Cli.AsWrittenMissesRoot | src/save_and_restore_api/tools/cli.py:482-492 | a top-level configuration gets no parent folder even when creation is asked for |
| Cli.NestedConfigPaths | src/save_and_restore_api/tools/cli.py:465-473 | "/a/cfg" splits into the folder list ["a"] and the name "cfg", and its parent folder path is "/a" |
| Cli.OneFolderFound | src/save_and_restore_api/tools/cli.py:447-462 | in a store holding only the folder "/a", the folder lookup of "/a" returns that folder's identifier |
| Cli.CreateParentFolders | src/save_and_restore_api/tools/cli.py:476-492 | a top-level configuration is placed in the root folder; otherwise an existing parent folder is returned without change; with creation truthy a parent is always returned; any returned folder is the one at the parent path |
| Cli.CorrectedFindsExistingParent | src/save_and_restore_api/tools/cli.py:482 | the corrected resolution returns the existing folder "/a" for "/a/cfg" |
| Cli.CorrectedUsesRoot | src/save_and_restore_api/tools/cli.py:482-492 | the corrected resolution returns the root folder for "/cfg" |

The `ApiBase.Prepare*` functions, one per `_prepare_*` preparer, have no rows of their own; the lemmas above state what each returns:
- `ApiBase.PrepareNodeAdd` has its own row.
- `ApiBase.IdentifiersInterpolatedVerbatim` covers PrepareNodeGet, PrepareNodeDelete, PrepareNodeGetChildren, PrepareNodeGetParent, PrepareConfigGet, PrepareTakeSnapshotGet, PrepareSnapshotGet, PrepareTakeSnapshotSave, PrepareConfigCreate and PrepareSnapshotAdd (method and identifier in the URL).
- `ApiBase.FixedEndpoints` covers PrepareInfoGet, PrepareVersionGet, PrepareTagsGet and PrepareSnapshotsGet.
- `ApiBase.ArgumentsPassedUnchanged` covers PrepareLogin, PrepareNodesGet, PrepareNodesDelete, PrepareConfigUpdate, PrepareTagsAdd, PrepareTagsDelete, PrepareTakeSnapshotSave, PrepareSnapshotAdd, PrepareSnapshotUpdate, PrepareRestoreNode and PrepareRestoreItems (method, path and the unchanged body or query).
- `ApiBase.ConfigCreateDefaultsData` and `ApiBase.NoEscaping` add the body of PrepareConfigCreate and the lack of escaping.

## Left out

- The asynchronous client `_api_async.py`: its only content is the async transport.
- The drafts `_api.py` and `api.py`: the package does not use them.
- The commented-out `_check_response`: dead code.
- `request_fail_exceptions`: accepted by the constructor and ignored, as in the code.
- `RequestFailedError`: only its message is modelled, because no live code path raises it.
- `_adjust_timeout`: not part of this model, because the source calls it but does not define it. The timeout key holds the token `TimeoutArg(t)` for what it makes of `t`.
- `_prepare_search`, `_prepare_help`, `_prepare_compare` and `_prepare_structure_move`/`_copy`/`_path_get`/`_path_nodes`: not part of this model, because the source calls them but does not define them. Their wrappers take the preparer as a function parameter.
- The transport's internals are left out: sending, JSON parsing, `raise_for_status`, `BasicAuth` encoding and the exception class hierarchy. They are abstracted as the response record, the exception kinds and the `Transport` function.
- The no-client case of `send_request` and `close`: the `AttributeError` text of a missing client is a constant.
- Python's `str()` of lists and dictionaries is the parameter `render`. Only scalars are formatted concretely.
- Floating-point timeouts are opaque `real` values.
- JSON numbers are integers only.
- `upper` is ASCII only. `repr` escapes only quotes, backslashes, newline, carriage return and tab, so other non-printable characters are not escaped as Python does.
- Dictionary order: dictionaries are maps.
- ApiBase.ClientErrorMessage: the URL is the response's, where the code uses `exc.request.url`; the transport sets both to the same request.
- `process_login_command`, `process_config_command`, `parse_args`, `print_settings`, `setup_loggers`, `set_username_password` and the `main` of `upload.py` are left out: they are argument parsing, input, printing and network orchestration. Two quirks of that orchestration are therefore not modelled:
  - ADD sends an empty PV list whatever was loaded;
  - `create_folders` arrives as the string "ON" or "OFF", so it is always truthy.
- Files are lists of lines; opening files and path checks are left out.
- Cli.CreateMissingFolders, Cli.WalkFolders: the path lookup and the folder addition never fail, because the store does not model service errors or concurrent changes. A node is a record of identifier, name and type, not a JSON dictionary.
- Tests and fixtures, which need a running service.

## Findings

| source | as written | input that shows it | evidently intended | confidence | as-written member | corrected member |
|---|---|---|---|---|---|---|
| src/save_and_restore_api/tools/cli.py:482 | `create_missing_folders` looks up the whole configuration path as a FOLDER, so an existing parent folder is never found when creation is off | folder "/a" exists, `config_name` "/a/cfg", and `create_missing_folders` called with `create_folders` falsy, its default (cli.py:476): returns None although "/a" exists. The command line always passes a truthy string ("ON" or "OFF"), so ADD walks the folders and finds "/a" anyway | look up the parent path "/a" and return its folder | medium, not executed | Cli.AsWrittenMissesExistingParent | Cli.CreateParentFolders |
| src/save_and_restore_api/tools/cli.py:482-492 | a configuration at the top level has no folders to walk, so the function returns the failed lookup's None even when creation is on | `config_name` "/cfg", `create_folders` truthy, as the command line always passes it: returns None, so ADD prints that the folder does not exist and adds nothing (cli.py:563-564) | return `ROOT_NODE_UID`, the folder a top-level configuration belongs in | medium, not executed | Cli.AsWrittenMissesRoot | Cli.CreateParentFolders |
