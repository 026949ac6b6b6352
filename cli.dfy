/** The list and path logic of the `save-and-restore` command-line tool: PV
    lists read from autosave files, node paths split into folders and a name,
    the node lookup by path and type, and the walk that creates the folders a
    configuration path needs. The service is the node store of `NodeStore`. */
module Cli {
  import opened Wrappers
  import opened Json
  import Strings
  import ApiBase
  import opened NodeStore

  /** What the tool raises: its own `ValueError`, or a client error it lets through. */
  datatype CliError = ValueError(message: string) | ApiFailure(error: ApiBase.ApiError)

  // ===========================================================================
  // PV lists
  // ===========================================================================

  /** The entry `{"pvName": pvName}` of a configuration's PV list. */
  function PvEntry(pvName: string): (v: Value)
    ensures v.Obj? && v.fields.Keys == {"pvName"} && v.fields["pvName"] == Str(pvName)
  {
    Obj(map["pvName" := Str(pvName)])
  }

  /** `add_to_pv_list`: one entry is appended and the earlier ones stay. */
  method AddToPvList(pvList: ValueList, pvName: string)
    modifies pvList
    ensures pvList.items == old(pvList.items) + [PvEntry(pvName)]
  {
    pvList.Append(PvEntry(pvName));
  }

  /** Autosave lines that are comments or markup. */
  predicate IsSkipped(ln: string)
  {
    Strings.StartsWith(ln, "#") || Strings.StartsWith(ln, "<")
  }

  /** The PV name an autosave line contributes: the stripped line's text before
      its first space, unless the line is skipped or that text is empty. */
  function PvNameOf(line: string): (r: Option<string>)
    ensures r.Some? ==> r.value != "" && ' ' !in r.value
  {
    var ln := Strings.Strip(line);
    if IsSkipped(ln) then None
    else
      Strings.SplitFirstPiece(ln, ' ');
      var pvName := Strings.Split(ln, ' ')[0];
      if pvName != "" then Some(pvName) else None
  }

  /** A line contributes nothing exactly when it is blank or skipped; otherwise
      it contributes the first word of its stripped text, which neither starts
      with whitespace nor with a comment or markup character. */
  lemma PvNameOfCharacterized(line: string)
    ensures var ln := Strings.Strip(line);
      (PvNameOf(line).None? <==> ln == "" || IsSkipped(ln)) &&
      (PvNameOf(line).Some? ==>
        var n := PvNameOf(line).value;
        Strings.StartsWith(ln, n) && (|n| == |ln| || ln[|n|] == ' ') &&
        !Strings.IsWhitespace(n[0]) && n[0] != '#' && n[0] != '<')
  {
    var ln := Strings.Strip(line);
    var i, j := Strings.StripBounds(line);
    Strings.SplitFirstPiece(ln, ' ');
    if ln != "" {
      assert ln[0] == line[i];
      assert !Strings.IsWhitespace(ln[0]);
      if !IsSkipped(ln) {
        var n := Strings.Split(ln, ' ')[0];
        assert n != "";
        assert n[0] == ln[0];
        assert !Strings.StartsWith(ln, "#") && !Strings.StartsWith(ln, "<");
        assert ln[..1] == [ln[0]];
      }
    }
  }

  /** The PV names of an autosave file, line by line in file order. */
  function AutosavePvNames(lines: seq<string>): (names: seq<string>)
    ensures |names| <= |lines|
    ensures forall k :: 0 <= k < |names| ==> names[k] != "" && ' ' !in names[k]
  {
    if |lines| == 0 then []
    else
      var init := AutosavePvNames(lines[..|lines| - 1]);
      match PvNameOf(lines[|lines| - 1])
      case Some(n) => init + [n]
      case None => init
  }

  /** The names of two consecutive parts of a file are the names of the first
      followed by the names of the second: file order is kept. */
  lemma {:induction false} AutosaveConcat(a: seq<string>, b: seq<string>)
    ensures AutosavePvNames(a + b) == AutosavePvNames(a) + AutosavePvNames(b)
  {
    if |b| == 0 {
      assert a + b == a;
    } else {
      var b' := b[..|b| - 1];
      assert (a + b)[..|a + b| - 1] == a + b';
      assert (a + b)[|a + b| - 1] == b[|b| - 1];
      AutosaveConcat(a, b');
    }
  }

  /** Every name a line contributes is in the result. */
  lemma {:induction false} AutosaveKeepsEveryName(lines: seq<string>, i: nat)
    requires i < |lines| && PvNameOf(lines[i]).Some?
    ensures PvNameOf(lines[i]).value in AutosavePvNames(lines)
  {
    var init := lines[..|lines| - 1];
    if i < |lines| - 1 {
      assert init[i] == lines[i];
      AutosaveKeepsEveryName(init, i);
    }
  }

  /** `load_pvs_from_autosave_file` over the lines of the file. */
  method LoadPvsFromAutosaveFile(lines: seq<string>) returns (pvNames: seq<string>)
    ensures pvNames == AutosavePvNames(lines)
  {
    pvNames := [];
    for i := 0 to |lines|
      invariant pvNames == AutosavePvNames(lines[..i])
    {
      assert lines[..i + 1][..i] == lines[..i];
      var ln := Strings.Strip(lines[i]);
      if IsSkipped(ln) {
        continue;
      }
      var pvName := Strings.Split(ln, ' ')[0];
      if pvName != "" {
        pvNames := pvNames + [pvName];
      }
    }
    assert lines[..|lines|] == lines;
  }

  /** The PV-list entries for a list of names. */
  function PvEntries(names: seq<string>): (entries: seq<Value>)
    ensures |entries| == |names|
    ensures forall k :: 0 <= k < |names| ==> entries[k] == PvEntry(names[k])
  {
    seq(|names|, k requires 0 <= k < |names| => PvEntry(names[k]))
  }

  /** `load_pvs_from_file`: the autosave format yields the PV-list entries of
      the file's names; every other format is refused. */
  method LoadPvsFromFile(lines: seq<string>, fileFormat: string) returns (r: Result<seq<Value>, CliError>)
    ensures fileFormat == "autosave" ==> r == Success(PvEntries(AutosavePvNames(lines)))
    ensures fileFormat != "autosave" ==> r == Failure(ValueError("Unsupported file format: " + fileFormat + "."))
  {
    var pvNames: seq<string> := [];
    if fileFormat == "autosave" {
      for i := 0 to |lines|
        invariant pvNames == AutosavePvNames(lines[..i])
      {
        assert lines[..i + 1][..i] == lines[..i];
        var ll := Strings.Strip(lines[i]);
        if IsSkipped(ll) {
          continue;
        }
        var pvName := Strings.Split(ll, ' ')[0];
        if pvName != "" {
          pvNames := pvNames + [pvName];
        }
      }
      assert lines[..|lines|] == lines;
      r := Success(PvEntries(pvNames));
    } else {
      r := Failure(ValueError("Unsupported file format: " + fileFormat + "."));
    }
  }

  // ===========================================================================
  // Node paths
  // ===========================================================================

  /** A path with a leading "/" added when it has none. */
  function NormalizePath(nodePath: string): (r: string)
    ensures Strings.StartsWith(r, "/")
    ensures Strings.StartsWith(nodePath, "/") ==> r == nodePath
    ensures !Strings.StartsWith(nodePath, "/") ==> r == "/" + nodePath
  {
    if Strings.StartsWith(nodePath, "/") then nodePath else "/" + nodePath
  }

  /** `split_node_path`: the segments strictly between the first and the last
      "/" of the normalized path, and the segment after the last one. */
  function SplitNodePath(nodePath: string): (r: (seq<string>, string))
    ensures forall k :: 0 <= k < |r.0| ==> '/' !in r.0[k]
    ensures '/' !in r.1
  {
    var p := NormalizePath(nodePath);
    var parts := Strings.Split(p, '/');
    assert parts == [""] + Strings.Split(p[1..], '/');
    Strings.SplitPiecesHaveNoSeparator(p, '/');
    (parts[1..|parts| - 1], parts[|parts| - 1])
  }

  /** `split_config_name`, written separately in the source, computes the same. */
  function SplitConfigName(configName: string): (r: (seq<string>, string))
    ensures r == SplitNodePath(configName)
  {
    var p := if !Strings.StartsWith(configName, "/") then "/" + configName else configName;
    var parts := Strings.Split(p, '/');
    assert parts == [""] + Strings.Split(p[1..], '/');
    (parts[1..|parts| - 1], parts[|parts| - 1])
  }

  /** Joining the folders and the name with "/" after a leading "/" gives back
      the normalized path. */
  lemma SplitNodePathJoin(nodePath: string)
    ensures var (folders, name) := SplitNodePath(nodePath);
      "/" + Strings.Join(folders + [name], '/') == NormalizePath(nodePath)
  {
    var p := NormalizePath(nodePath);
    var rest := Strings.Split(p[1..], '/');
    var parts := Strings.Split(p, '/');
    assert parts == [""] + rest;
    assert parts[1..|parts| - 1] + [parts[|parts| - 1]] == rest;
    Strings.JoinSplit(p[1..], '/');
    assert p == "/" + p[1..];
  }

  /** The pieces of `folders + [name]` have no "/" when its parts have none. */
  lemma PartsHaveNoSlash(folders: seq<string>, name: string)
    requires forall k :: 0 <= k < |folders| ==> '/' !in folders[k]
    requires '/' !in name
    ensures forall k :: 0 <= k < |folders + [name]| ==> '/' !in (folders + [name])[k]
  {
    forall k | 0 <= k < |folders + [name]| ensures '/' !in (folders + [name])[k] {
      if k < |folders| { assert (folders + [name])[k] == folders[k]; }
    }
  }

  /** A path that starts with "/" splits after it. */
  lemma SplitNodePathOfSlashed(s: string)
    ensures var parts := Strings.Split(s, '/');
      SplitNodePath("/" + s) == (parts[..|parts| - 1], parts[|parts| - 1])
  {
    var p := "/" + s;
    assert p[..1] == "/";
    Strings.SplitLeadingSeparator(s, '/');
    var parts := Strings.Split(s, '/');
    var all := Strings.Split(p, '/');
    assert all == [""] + parts;
    assert all[1..|all| - 1] == parts[..|parts| - 1];
  }

  /** Folders and a name without "/" are recovered from the path they make. */
  lemma SplitNodePathOfJoin(folders: seq<string>, name: string)
    requires forall k :: 0 <= k < |folders| ==> '/' !in folders[k]
    requires '/' !in name
    ensures SplitNodePath("/" + Strings.Join(folders + [name], '/')) == (folders, name)
  {
    var parts := folders + [name];
    PartsHaveNoSlash(folders, name);
    Strings.SplitJoin(parts, '/');
    SplitNodePathOfSlashed(Strings.Join(parts, '/'));
    assert parts[..|parts| - 1] == folders;
  }

  /** A path without a leading "/" splits as if it had one. */
  lemma SplitNodePathLeadingSlash(nodePath: string)
    requires !Strings.StartsWith(nodePath, "/")
    ensures SplitNodePath(nodePath) == SplitNodePath("/" + nodePath)
  {
    assert ("/" + nodePath)[..1] == "/";
  }

  // ===========================================================================
  // Node lookup by path and type
  // ===========================================================================

  /** The node types the lookup accepts. */
  const LOOKUP_TYPES: set<string> := {"CONFIGURATION", "FOLDER"}

  /** The nodes of one type, in order. */
  function OfType(nodes: seq<Node>, nodeType: string): (r: seq<Node>)
    ensures |r| <= |nodes|
    ensures forall k :: 0 <= k < |r| ==> r[k].nodeType == nodeType && r[k] in nodes
    ensures |r| == 0 <==> forall k :: 0 <= k < |nodes| ==> nodes[k].nodeType != nodeType
  {
    if |nodes| == 0 then []
    else
      var rest := OfType(nodes[1..], nodeType);
      assert forall k :: 0 <= k < |rest| ==> rest[k] in nodes by {
        forall k | 0 <= k < |rest| ensures rest[k] in nodes {
          assert rest[k] in nodes[1..];
        }
      }
      assert (forall k :: 0 <= k < |nodes[1..]| ==> nodes[1..][k].nodeType != nodeType) ==
             (forall k :: 1 <= k < |nodes| ==> nodes[k].nodeType != nodeType) by {
        forall k | 1 <= k < |nodes| ensures nodes[1..][k - 1] == nodes[k] {}
      }
      (if nodes[0].nodeType == nodeType then [nodes[0]] else []) + rest
  }

  /** The first node of the type heads the filtered list. */
  lemma {:induction false} OfTypeHead(nodes: seq<Node>, nodeType: string, i: nat)
    requires i < |nodes| && nodes[i].nodeType == nodeType
    requires forall j :: 0 <= j < i ==> nodes[j].nodeType != nodeType
    ensures |OfType(nodes, nodeType)| > 0 && OfType(nodes, nodeType)[0] == nodes[i]
  {
    if i > 0 {
      OfTypeHead(nodes[1..], nodeType, i - 1);
    }
  }

  /** `check_node_exists` on what the path lookup produced: the type is checked
      first; a client error from the lookup counts as no nodes and any other
      error goes to the caller; the answer is the identifier of the first node
      of the type, or None. */
  function CheckNodeExists(lookup: Result<seq<Node>, ApiBase.ApiError>, nodeType: string)
    : (r: Result<Option<string>, CliError>)
    ensures nodeType !in LOOKUP_TYPES ==> r == Failure(ValueError("Unsupported node type: " + nodeType))
    ensures nodeType in LOOKUP_TYPES && lookup.Failure? && lookup.error.HTTPClientError? ==> r == Success(None)
    ensures nodeType in LOOKUP_TYPES && lookup.Failure? && !lookup.error.HTTPClientError? ==>
      r == Failure(ApiFailure(lookup.error))
    ensures nodeType in LOOKUP_TYPES && lookup.Success? ==>
      r.Success? && (r.value.None? <==> forall k :: 0 <= k < |lookup.value| ==> lookup.value[k].nodeType != nodeType)
  {
    if nodeType !in LOOKUP_TYPES then
      Failure(ValueError("Unsupported node type: " + nodeType))
    else
      var nodes := if lookup.Failure? && lookup.error.HTTPClientError? then [] else if lookup.Success? then lookup.value else [];
      if lookup.Failure? && !lookup.error.HTTPClientError? then
        Failure(ApiFailure(lookup.error))
      else
        var matching := OfType(nodes, nodeType);
        if |matching| > 0 then Success(Some(matching[0].uniqueId)) else Success(None)
  }

  /** The identifier found is the one of the first node of the type. */
  lemma CheckNodeExistsFirstMatch(nodes: seq<Node>, nodeType: string, i: nat)
    requires nodeType in LOOKUP_TYPES
    requires i < |nodes| && nodes[i].nodeType == nodeType
    requires forall j :: 0 <= j < i ==> nodes[j].nodeType != nodeType
    ensures CheckNodeExists(Success(nodes), nodeType) == Success(Some(nodes[i].uniqueId))
  {
    OfTypeHead(nodes, nodeType, i);
  }

  /** The folder lookup at `path` in a store. */
  function LookupFolder(entries: seq<Entry>, path: string): Option<string>
  {
    CheckNodeExists(Success(NodesAt(entries, path)), "FOLDER").value
  }

  /** In a valid store the folder lookup finds a stored folder at that path,
      with a non-empty identifier, or reports that there is none. */
  lemma LookupFolderSound(entries: seq<Entry>, path: string)
    requires ValidEntries(entries)
    ensures var r := LookupFolder(entries, path);
      (r.Some? ==> r.value != "" && IsFolderAt(entries, r.value, path)) &&
      (r.None? <==> NoFolderAt(entries, path))
  {
    var nodes := NodesAt(entries, path);
    var matching := OfType(nodes, "FOLDER");
    if |matching| > 0 {
      var k := NodesAtMember(entries, path, matching[0]);
      FindUid(entries, k);
      assert !NoFolderAt(entries, path) by {
        assert matching[0] in nodes && matching[0].nodeType == "FOLDER";
      }
    } else {
      forall n | n in nodes ensures n.nodeType != "FOLDER" {
        var k :| 0 <= k < |nodes| && nodes[k] == n;
      }
    }
  }

  // ===========================================================================
  // Creating missing folders
  // ===========================================================================

  /** Python's truthiness of a node identifier: None and "" are false. */
  predicate UidTruthy(u: Option<string>)
  {
    u.Some? && u.value != ""
  }

  /** The path the walk has reached after `k` folders: "/f1/.../fk". */
  function PrefixPath(folders: seq<string>, k: nat): string
    requires k <= |folders|
  {
    if k == 0 then "" else PrefixPath(folders, k - 1) + "/" + folders[k - 1]
  }

  /** The walked path is the folders joined with "/" after a leading "/". */
  lemma {:induction false} PrefixPathIsJoin(folders: seq<string>, k: nat)
    requires 1 <= k <= |folders|
    ensures PrefixPath(folders, k) == "/" + Strings.Join(folders[..k], '/')
  {
    if k == 1 {
      assert folders[..1] == [folders[0]];
    } else {
      PrefixPathIsJoin(folders, k - 1);
      assert folders[..k] == folders[..k - 1] + [folders[k - 1]];
      Strings.JoinSnoc(folders[..k - 1], folders[k - 1], '/');
    }
  }

  /** No folder is stored at `path`. */
  predicate NoFolderAt(entries: seq<Entry>, path: string)
  {
    forall n :: n in NodesAt(entries, path) ==> n.nodeType != "FOLDER"
  }

  /** `e` is the walk's `j`-th folder as `entries` would receive it: it is named
      `folders[j]`, sits at the path of the first `j + 1` folders, and its parent
      is the root for the first folder and otherwise a folder already stored at
      the path of the first `j` folders. */
  predicate PlacedAt(entries: seq<Entry>, e: Entry, folders: seq<string>, j: nat)
    requires j < |folders|
  {
    e.node.name == folders[j] && e.path == PrefixPath(folders, j + 1) &&
    (j == 0 ==> e.parentUid == ApiBase.ROOT_NODE_UID) &&
    (j > 0 ==> IsFolderAt(entries, e.parentUid, PrefixPath(folders, j)))
  }

  /** `e` is placed as one of the walk's folders. */
  predicate WalkPlaced(entries: seq<Entry>, e: Entry, folders: seq<string>)
  {
    exists j: nat :: j < |folders| && PlacedAt(entries, e, folders, j)
  }

  /** `e` is a folder of the walk that was missing at its path in `entries`. */
  predicate AddedMissingFolder(entries: seq<Entry>, e: Entry, folders: seq<string>)
  {
    e.node.nodeType == "FOLDER" && WalkPlaced(entries, e, folders) && NoFolderAt(entries, e.path)
  }

  /** The store only grew from `before` to `after`, one node at a time, and each
      node added is a folder of the walk over `folders`, placed below the
      previous folder of the walk, that was missing at its path when it was
      added. */
  predicate AddsOnlyMissingFolders(before: seq<Entry>, after: seq<Entry>, folders: seq<string>)
    decreases |after|
  {
    if |after| <= |before| then after == before
    else
      var init := after[..|after| - 1];
      var e := after[|after| - 1];
      AddsOnlyMissingFolders(before, init, folders) && AddedMissingFolder(init, e, folders)
  }

  /** A walk's history keeps the store it started from as a prefix. */
  lemma {:induction false} AddsOnlyMissingFoldersPrefix(before: seq<Entry>, after: seq<Entry>, folders: seq<string>)
    requires AddsOnlyMissingFolders(before, after, folders)
    ensures |before| <= |after| && after[..|before|] == before
    decreases |after|
  {
    if |after| > |before| {
      var init := after[..|after| - 1];
      AddsOnlyMissingFoldersPrefix(before, init, folders);
      assert after[..|before|] == init[..|before|];
    }
  }

  /** The `k`-th entry of a walk's history, past the store it started from, is a
      folder of the walk that was missing among the entries before it. */
  lemma {:induction false} AddsOnlyMissingFoldersAt(before: seq<Entry>, after: seq<Entry>, folders: seq<string>, k: nat)
    requires AddsOnlyMissingFolders(before, after, folders)
    requires |before| <= k < |after|
    ensures AddedMissingFolder(after[..k], after[k], folders)
    decreases |after|
  {
    var init := after[..|after| - 1];
    if k < |init| {
      AddsOnlyMissingFoldersAt(before, init, folders, k);
      assert init[..k] == after[..k];
      assert init[k] == after[k];
    } else {
      assert after[..k] == init;
    }
  }

  /** What `AddsOnlyMissingFolders` means entry by entry: `before` is kept as a
      prefix, and every later entry is a folder of the walk, placed below the
      previous folder of the walk, that had no folder at its path among the
      entries before it. */
  lemma AddsOnlyMissingFoldersMeaning(before: seq<Entry>, after: seq<Entry>, folders: seq<string>)
    requires AddsOnlyMissingFolders(before, after, folders)
    ensures |before| <= |after| && after[..|before|] == before
    ensures forall k :: |before| <= k < |after| ==> AddedMissingFolder(after[..k], after[k], folders)
  {
    AddsOnlyMissingFoldersPrefix(before, after, folders);
    forall k | |before| <= k < |after|
      ensures AddedMissingFolder(after[..k], after[k], folders)
    {
      AddsOnlyMissingFoldersAt(before, after, folders, k);
    }
  }

  /** For the walk over ["a", "b"], a history that first adds "b" at "/b" and
      then "b" at "/a/b" below it is not a walk's: the first folder of the walk
      is "a" at "/a", and "b" belongs only at "/a/b" below it. */
  lemma OutOfPlaceFoldersRejected()
    ensures !AddsOnlyMissingFolders([], [Entry(Node(UidFor(0), "b", "FOLDER"), ApiBase.ROOT_NODE_UID, "/b"),
                                         Entry(Node(UidFor(1), "b", "FOLDER"), UidFor(0), "/a/b")], ["a", "b"])
  {
    var folders := ["a", "b"];
    var e0 := Entry(Node(UidFor(0), "b", "FOLDER"), ApiBase.ROOT_NODE_UID, "/b");
    var h := [e0, Entry(Node(UidFor(1), "b", "FOLDER"), UidFor(0), "/a/b")];
    assert PrefixPath(folders, 2) == "/a/b";
    assert !WalkPlaced([], e0, folders) by {
      forall j: nat | j < |folders|
        ensures !PlacedAt([], e0, folders, j)
      {
        if j == 1 {
          assert |e0.path| < |PrefixPath(folders, 2)|;
        }
      }
    }
    assert h[..1] == [e0] && [e0][..0] == [];
  }

  lemma AddsOnlyMissingFoldersAppend(before: seq<Entry>, after: seq<Entry>, e: Entry, folders: seq<string>)
    requires AddsOnlyMissingFolders(before, after, folders)
    requires AddedMissingFolder(after, e, folders)
    ensures AddsOnlyMissingFolders(before, after + [e], folders)
  {
    assert (after + [e])[..|after|] == after;
  }

  /** The walk's parent is the root with the empty path or a stored folder at
      the path walked so far; either way the service knows it under that path. */
  lemma ParentPathOf(entries: seq<Entry>, parentUid: string, path: string)
    requires ValidEntries(entries)
    requires (parentUid == ApiBase.ROOT_NODE_UID && path == "") || IsFolderAt(entries, parentUid, path)
    ensures Known(entries, parentUid) && PathOf(entries, parentUid) == path
  {
  }

  /** The state of the walk of `create_missing_folders`: the store's nodes,
      the parent the next folder goes under, the path walked so far and the
      identifier carried on. */
  datatype WalkState = WalkState(entries: seq<Entry>, parentUid: string, path: string, nodeUid: Option<string>)

  /** One step of the walk: the path grows by `name` and is looked up as a
      folder; when no folder is there, one named `name` is added under
      `parentUid` with the next identifier. The folder found or added becomes
      the parent and the identifier carried on. */
  function FolderStep(entries: seq<Entry>, parentUid: string, parentPath: string, name: string): (w: WalkState)
    ensures w.path == parentPath + "/" + name && w.nodeUid == Some(w.parentUid)
  {
    var path := parentPath + "/" + name;
    var found := LookupFolder(entries, path);
    if UidTruthy(found) then WalkState(entries, found.value, path, Some(found.value))
    else
      var uid := UidFor(|entries|);
      WalkState(entries + [Entry(Node(uid, name, "FOLDER"), parentUid, path)], uid, path, Some(uid))
  }

  /** The walk over the first `i` folders, from the root with the empty path
      and the identifier `nodeUid0`. */
  function WalkUpTo(entries0: seq<Entry>, folders: seq<string>, i: nat, nodeUid0: Option<string>): WalkState
    requires i <= |folders|
  {
    if i == 0 then WalkState(entries0, ApiBase.ROOT_NODE_UID, "", nodeUid0)
    else
      var w := WalkUpTo(entries0, folders, i - 1, nodeUid0);
      FolderStep(w.entries, w.parentUid, w.path, folders[i - 1])
  }

  /** Under the root or a stored folder at `parentPath`, a step of the walk
      ends at a stored folder at the extended path, carries its identifier on,
      keeps the store valid, leaves it alone when a folder is already there and
      otherwise adds exactly the missing folder below the parent. */
  lemma FolderStepFindsOrAdds(entries: seq<Entry>, parentUid: string, parentPath: string, name: string)
    requires ValidEntries(entries)
    ensures var w := FolderStep(entries, parentUid, parentPath, name);
      w.path == parentPath + "/" + name && w.nodeUid == Some(w.parentUid) &&
      ValidEntries(w.entries) && IsFolderAt(w.entries, w.parentUid, w.path)
    ensures var w := FolderStep(entries, parentUid, parentPath, name);
      !NoFolderAt(entries, w.path) ==> w.entries == entries
    ensures var w := FolderStep(entries, parentUid, parentPath, name);
      NoFolderAt(entries, w.path) ==>
        w.entries == entries + [Entry(Node(w.parentUid, name, "FOLDER"), parentUid, w.path)]
  {
    var path := parentPath + "/" + name;
    LookupFolderSound(entries, path);
    if !UidTruthy(LookupFolder(entries, path)) {
      AppendFolder(entries, Entry(Node(UidFor(|entries|), name, "FOLDER"), parentUid, path));
    }
  }

  /** One step of the walk (the body of the loop of `create_missing_folders`):
      `path` is looked up as a folder, and a folder `name` is added under
      `parentUid` when none is there; the new store and the identifier returned
      are those of `FolderStep`. */
  method FindOrAddFolder(store: Store, parentUid: string, path: string, name: string, ghost parentPath: string)
    returns (uid: string)
    requires store.Valid()
    requires path == parentPath + "/" + name
    requires (parentUid == ApiBase.ROOT_NODE_UID && parentPath == "") || IsFolderAt(store.entries, parentUid, parentPath)
    modifies store
    ensures store.Valid()
    ensures var w := FolderStep(old(store.entries), parentUid, parentPath, name);
      store.entries == w.entries && uid == w.parentUid
  {
    var nodes := store.PathNodes(path);
    assert nodes == NodesAt(store.entries, path);
    var found := CheckNodeExists(Success(nodes), "FOLDER").value;
    if UidTruthy(found) {
      uid := found.value;
    } else {
      ParentPathOf(store.entries, parentUid, parentPath);
      uid := store.AddFolder(parentUid, name);
    }
  }

  /** The shape of the walk after `i` folders: the store is valid and the path
      is that of the first `i` folders; before the first step the parent is the
      root, the store is untouched and the identifier is the one given; after it
      the parent is the folder stored at the path, and it is the identifier
      carried on. */
  predicate WalkShape(entries0: seq<Entry>, folders: seq<string>, i: nat, w: WalkState, nodeUid0: Option<string>)
    requires i <= |folders|
  {
    ValidEntries(w.entries) && w.path == PrefixPath(folders, i) &&
    (i == 0 ==> w.parentUid == ApiBase.ROOT_NODE_UID && w.nodeUid == nodeUid0 && w.entries == entries0) &&
    (i > 0 ==> w.nodeUid == Some(w.parentUid) && IsFolderAt(w.entries, w.parentUid, w.path))
  }

  /** From the shape after `i - 1` folders, the step with the `i`-th folder
      gives the shape after `i` folders. */
  lemma FolderStepShape(entries0: seq<Entry>, folders: seq<string>, i: nat, w: WalkState, nodeUid0: Option<string>)
    requires 0 < i <= |folders| && WalkShape(entries0, folders, i - 1, w, nodeUid0)
    ensures WalkShape(entries0, folders, i, FolderStep(w.entries, w.parentUid, w.path, folders[i - 1]), nodeUid0)
  {
    FolderStepFindsOrAdds(w.entries, w.parentUid, w.path, folders[i - 1]);
  }

  /** From the shape after `i - 1` folders, the step with the `i`-th folder
      keeps the history of adding only missing folders. */
  lemma FolderStepKeepsHistory(entries0: seq<Entry>, folders: seq<string>, i: nat, w: WalkState, nodeUid0: Option<string>)
    requires 0 < i <= |folders| && WalkShape(entries0, folders, i - 1, w, nodeUid0)
    requires AddsOnlyMissingFolders(entries0, w.entries, folders)
    ensures AddsOnlyMissingFolders(entries0, FolderStep(w.entries, w.parentUid, w.path, folders[i - 1]).entries, folders)
  {
    var n := FolderStep(w.entries, w.parentUid, w.path, folders[i - 1]);
    FolderStepFindsOrAdds(w.entries, w.parentUid, w.path, folders[i - 1]);
    assert n.path == PrefixPath(folders, i);
    if NoFolderAt(w.entries, n.path) {
      var e := Entry(Node(n.parentUid, folders[i - 1], "FOLDER"), w.parentUid, n.path);
      assert PlacedAt(w.entries, e, folders, i - 1);
      AddsOnlyMissingFoldersAppend(entries0, w.entries, e, folders);
    }
  }

  /** The walk over the first `i` folders has the shape of the walk after `i`
      folders. */
  lemma {:induction false} WalkUpToShape(entries0: seq<Entry>, folders: seq<string>, i: nat, nodeUid0: Option<string>)
    requires ValidEntries(entries0) && i <= |folders|
    ensures WalkShape(entries0, folders, i, WalkUpTo(entries0, folders, i, nodeUid0), nodeUid0)
  {
    if i > 0 {
      WalkUpToShape(entries0, folders, i - 1, nodeUid0);
      FolderStepShape(entries0, folders, i, WalkUpTo(entries0, folders, i - 1, nodeUid0), nodeUid0);
    }
  }

  /** The walk over the first `i` folders only adds missing folders of the
      walk, each below the previous folder of the walk. */
  lemma {:induction false} WalkUpToHistory(entries0: seq<Entry>, folders: seq<string>, i: nat, nodeUid0: Option<string>)
    requires ValidEntries(entries0) && i <= |folders|
    ensures AddsOnlyMissingFolders(entries0, WalkUpTo(entries0, folders, i, nodeUid0).entries, folders)
  {
    if i > 0 {
      WalkUpToHistory(entries0, folders, i - 1, nodeUid0);
      WalkUpToShape(entries0, folders, i - 1, nodeUid0);
      FolderStepKeepsHistory(entries0, folders, i, WalkUpTo(entries0, folders, i - 1, nodeUid0), nodeUid0);
    }
  }

  /** The walk's parent is always the root with the empty path or a stored
      folder at the path walked so far. */
  lemma WalkUpToParent(entries0: seq<Entry>, folders: seq<string>, i: nat, nodeUid0: Option<string>)
    requires ValidEntries(entries0) && i <= |folders|
    ensures var w := WalkUpTo(entries0, folders, i, nodeUid0);
      (w.parentUid == ApiBase.ROOT_NODE_UID && w.path == "") || IsFolderAt(w.entries, w.parentUid, w.path)
  {
    WalkUpToShape(entries0, folders, i, nodeUid0);
  }

  /** The loop of `create_missing_folders`: for each folder, extend the path,
      look it up as a folder, add it under the previous folder when missing, and
      carry its identifier on. The new store and the identifier returned are
      those of the walk over all the folders. */
  method WalkFolders(store: Store, folders: seq<string>, nodeUid0: Option<string>) returns (nodeUid: Option<string>)
    requires store.Valid()
    modifies store
    ensures store.Valid()
    ensures var w := WalkUpTo(old(store.entries), folders, |folders|, nodeUid0);
      store.entries == w.entries && nodeUid == w.nodeUid
  {
    ghost var entries0 := store.entries;
    nodeUid := nodeUid0;
    var path := "";
    var parentUid := ApiBase.ROOT_NODE_UID;
    for i := 0 to |folders|
      invariant store.Valid()
      invariant WalkState(store.entries, parentUid, path, nodeUid) == WalkUpTo(entries0, folders, i, nodeUid0)
    {
      WalkUpToParent(entries0, folders, i, nodeUid0);
      var uid := FindOrAddFolder(store, parentUid, path + "/" + folders[i], folders[i], path);
      path := path + "/" + folders[i];
      nodeUid := Some(uid);
      parentUid := uid;
    }
  }

  /** `create_missing_folders` as written: the lookup that decides whether to
      walk is of the whole path given, as a folder. */
  method CreateMissingFolders(store: Store, configName: string, createFolders: Value) returns (nodeUid: Option<string>)
    requires store.Valid()
    modifies store
    ensures store.Valid()
    ensures AddsOnlyMissingFolders(old(store.entries), store.entries, SplitNodePath(configName).0)
    ensures var start := LookupFolder(old(store.entries), configName);
      !(Truthy(createFolders) && !UidTruthy(start)) ==> nodeUid == start && store.entries == old(store.entries)
    ensures var start := LookupFolder(old(store.entries), configName);
      var folders := SplitNodePath(configName).0;
      Truthy(createFolders) && !UidTruthy(start) && |folders| == 0 ==>
        nodeUid == start && store.entries == old(store.entries)
    ensures var start := LookupFolder(old(store.entries), configName);
      var folders := SplitNodePath(configName).0;
      Truthy(createFolders) && !UidTruthy(start) && |folders| > 0 ==>
        nodeUid.Some? && IsFolderAt(store.entries, nodeUid.value, "/" + Strings.Join(folders, '/'))
  {
    var (folders, name) := SplitNodePath(configName);
    var found := CheckNodeExists(Success(store.PathNodes(configName)), "FOLDER");
    nodeUid := found.value;
    if Truthy(createFolders) && !UidTruthy(nodeUid) {
      ghost var entries0 := store.entries;
      ghost var nodeUid0 := nodeUid;
      nodeUid := WalkFolders(store, folders, nodeUid);
      WalkUpToShape(entries0, folders, |folders|, nodeUid0);
      WalkUpToHistory(entries0, folders, |folders|, nodeUid0);
      if |folders| > 0 {
        PrefixPathIsJoin(folders, |folders|);
        assert folders[..|folders|] == folders;
      }
    }
  }

  /** The path of the folder a configuration at `configName` belongs in. */
  function ParentPath(configName: string): string
  {
    "/" + Strings.Join(SplitNodePath(configName).0, '/')
  }

  /** The evidently intended folder resolution: a configuration at the top
      level belongs in the root folder; otherwise the parent path is looked up
      as a folder and, when it is missing and creation is asked for, the folders
      are walked. Whatever it returns is the folder the configuration goes in. */
  method CreateParentFolders(store: Store, configName: string, createFolders: Value) returns (parentUid: Option<string>)
    requires store.Valid()
    modifies store
    ensures store.Valid()
    ensures AddsOnlyMissingFolders(old(store.entries), store.entries, SplitNodePath(configName).0)
    ensures |SplitNodePath(configName).0| == 0 ==>
      parentUid == Some(ApiBase.ROOT_NODE_UID) && store.entries == old(store.entries)
    ensures |SplitNodePath(configName).0| > 0 && LookupFolder(old(store.entries), ParentPath(configName)).Some? ==>
      parentUid == LookupFolder(old(store.entries), ParentPath(configName)) && store.entries == old(store.entries)
    ensures |SplitNodePath(configName).0| > 0 && Truthy(createFolders) ==> parentUid.Some?
    ensures |SplitNodePath(configName).0| > 0 && !Truthy(createFolders) ==>
      parentUid == LookupFolder(old(store.entries), ParentPath(configName)) && store.entries == old(store.entries)
    ensures parentUid.Some? && |SplitNodePath(configName).0| > 0 ==>
      IsFolderAt(store.entries, parentUid.value, ParentPath(configName))
  {
    var (folders, name) := SplitNodePath(configName);
    if |folders| == 0 {
      return Some(ApiBase.ROOT_NODE_UID);
    }
    var parentPath := "/" + Strings.Join(folders, '/');
    var found := CheckNodeExists(Success(store.PathNodes(parentPath)), "FOLDER");
    LookupFolderSound(store.entries, parentPath);
    parentUid := found.value;
    if Truthy(createFolders) && !UidTruthy(parentUid) {
      ghost var entries0 := store.entries;
      ghost var parentUid0 := parentUid;
      parentUid := WalkFolders(store, folders, parentUid);
      WalkUpToShape(entries0, folders, |folders|, parentUid0);
      WalkUpToHistory(entries0, folders, |folders|, parentUid0);
      PrefixPathIsJoin(folders, |folders|);
      assert folders[..|folders|] == folders;
    }
  }

  // ===========================================================================
  // The folder lookup of `create_missing_folders`, on concrete stores
  // ===========================================================================

  /** With folder "/a" present and creation not asked for, the configuration
      "/a/cfg" gets no folder, because "/a/cfg" itself is looked up. */
  method AsWrittenMissesExistingParent() returns (store: Store, nodeUid: Option<string>)
    ensures IsFolderAt(store.entries, UidFor(0), "/a")
    ensures nodeUid.None?
  {
    store := new Store();
    var a := store.AddFolder(ApiBase.ROOT_NODE_UID, "a");
    assert NodesAt(store.entries, "/a/cfg") == [];
    nodeUid := CreateMissingFolders(store, "/a/cfg", Bool(false));
  }

  /** A top-level configuration gets no folder even when creation is asked for. */
  method AsWrittenMissesRoot() returns (store: Store, nodeUid: Option<string>)
    ensures nodeUid.None?
  {
    store := new Store();
    SplitNodePathOfJoin([], "cfg");
    assert "/" + Strings.Join([] + ["cfg"], '/') == "/cfg";
    nodeUid := CreateMissingFolders(store, "/cfg", Bool(true));
  }

  /** "/a/cfg" is the configuration "cfg" in the folder "/a". */
  lemma NestedConfigPaths()
    ensures SplitNodePath("/a/cfg") == (["a"], "cfg")
    ensures ParentPath("/a/cfg") == "/a"
  {
    SplitNodePathOfJoin(["a"], "cfg");
    assert "/" + Strings.Join(["a"] + ["cfg"], '/') == "/a/cfg";
    assert Strings.Join(["a"], '/') == "a";
  }

  /** A store holding only the folder "/a" finds it at "/a". */
  lemma OneFolderFound(entries: seq<Entry>)
    requires entries == [Entry(Node(UidFor(0), "a", "FOLDER"), ApiBase.ROOT_NODE_UID, "/a")]
    ensures LookupFolder(entries, "/a") == Some(UidFor(0))
  {
    var n := Node(UidFor(0), "a", "FOLDER");
    assert entries[..0] == [];
    assert NodesAt(entries, "/a") == [n];
    CheckNodeExistsFirstMatch([n], "FOLDER", 0);
  }

  /** The intended resolution finds the existing parent "/a" of "/a/cfg". */
  method CorrectedFindsExistingParent() returns (store: Store, parentUid: Option<string>)
    ensures parentUid == Some(UidFor(0))
  {
    store := new Store();
    assert PathOf([], ApiBase.ROOT_NODE_UID) + "/" + "a" == "/a";
    var a := store.AddFolder(ApiBase.ROOT_NODE_UID, "a");
    OneFolderFound(store.entries);
    NestedConfigPaths();
    parentUid := CreateParentFolders(store, "/a/cfg", Bool(false));
  }

  /** The intended resolution puts a top-level configuration in the root folder. */
  method CorrectedUsesRoot() returns (store: Store, parentUid: Option<string>)
    ensures parentUid == Some(ApiBase.ROOT_NODE_UID)
  {
    store := new Store();
    SplitNodePathOfJoin([], "cfg");
    assert "/" + Strings.Join([] + ["cfg"], '/') == "/cfg";
    parentUid := CreateParentFolders(store, "/cfg", Bool(true));
  }
}
