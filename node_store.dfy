/** A model of the remote service's node tree, as far as the command-line
    tools use it: nodes are found by their path and folders are added under an
    existing parent. The service assigns the identifier "uid-<n>" to the n-th
    node it creates; the root folder has the fixed identifier `ROOT_NODE_UID`
    and the empty path, so its children have paths "/<name>". */
module NodeStore {
  import opened Wrappers
  import Strings
  import ApiBase

  /** A node as the path lookup returns it. */
  datatype Node = Node(uniqueId: string, name: string, nodeType: string)

  /** A stored node with the identifier of its parent and its full path. */
  datatype Entry = Entry(node: Node, parentUid: string, path: string)

  /** The identifier the service gives to the `i`-th node it creates. */
  function UidFor(i: nat): (u: string)
    ensures u != "" && u != ApiBase.ROOT_NODE_UID
  {
    var u := "uid-" + Strings.NatToString(i);
    assert u[0] == 'u' && ApiBase.ROOT_NODE_UID[0] == '4';
    u
  }

  lemma UidForInjective(i: nat, j: nat)
    requires UidFor(i) == UidFor(j)
    ensures i == j
  {
    assert UidFor(i)[4..] == Strings.NatToString(i);
    assert UidFor(j)[4..] == Strings.NatToString(j);
    Strings.NatToStringInjective(i, j);
  }

  /** Every stored node carries the identifier of its creation index. */
  predicate ValidEntries(entries: seq<Entry>)
  {
    forall i :: 0 <= i < |entries| ==> entries[i].node.uniqueId == UidFor(i)
  }

  /** The first index holding the node `uid`. */
  function Find(entries: seq<Entry>, uid: string): (r: Option<nat>)
    ensures r.Some? ==> r.value < |entries| && entries[r.value].node.uniqueId == uid
    ensures r.Some? ==> forall j :: 0 <= j < r.value ==> entries[j].node.uniqueId != uid
    ensures r.None? ==> forall j :: 0 <= j < |entries| ==> entries[j].node.uniqueId != uid
  {
    if |entries| == 0 then None
    else if entries[0].node.uniqueId == uid then Some(0)
    else match Find(entries[1..], uid)
      case None => None
      case Some(k) => Some(k + 1)
  }

  /** In a valid store, the identifier of the `k`-th node finds exactly that node. */
  lemma FindUid(entries: seq<Entry>, k: nat)
    requires ValidEntries(entries) && k < |entries|
    ensures Find(entries, UidFor(k)) == Some(k)
  {
    var r := Find(entries, UidFor(k));
    assert r.Some?;
    UidForInjective(r.value, k);
  }

  /** Appending a node does not change where an existing one is found. */
  lemma FindAppend(entries: seq<Entry>, e: Entry, uid: string)
    requires Find(entries, uid).Some?
    ensures Find(entries + [e], uid) == Find(entries, uid)
  {
    var k := Find(entries, uid).value;
    var r := Find(entries + [e], uid);
    assert (entries + [e])[k] == entries[k];
    assert r.Some? && r.value <= k;
  }

  /** Appending a folder with the next identifier keeps the store valid, and
      that identifier then names the new folder at its path. */
  lemma AppendFolder(entries: seq<Entry>, e: Entry)
    requires ValidEntries(entries) && e.node.uniqueId == UidFor(|entries|) && e.node.nodeType == "FOLDER"
    ensures ValidEntries(entries + [e]) && IsFolderAt(entries + [e], e.node.uniqueId, e.path)
  {
    var after := entries + [e];
    forall k | 0 <= k < |after|
      ensures after[k].node.uniqueId == UidFor(k)
    {
      if k < |entries| {
        assert after[k] == entries[k];
      }
    }
    FindUid(after, |entries|);
  }

  /** Whether `uid` is the root or a stored node. */
  predicate Known(entries: seq<Entry>, uid: string)
  {
    uid == ApiBase.ROOT_NODE_UID || Find(entries, uid).Some?
  }

  /** The path of a known node; the root's path is empty. */
  function PathOf(entries: seq<Entry>, uid: string): string
    requires Known(entries, uid)
  {
    if uid == ApiBase.ROOT_NODE_UID then "" else entries[Find(entries, uid).value].path
  }

  /** Whether `uid` names a stored folder whose path is `path`. */
  predicate IsFolderAt(entries: seq<Entry>, uid: string, path: string)
  {
    Find(entries, uid).Some? &&
    entries[Find(entries, uid).value].path == path &&
    entries[Find(entries, uid).value].node.nodeType == "FOLDER"
  }

  /** The nodes whose path is `path`, in creation order: what the service's path
      lookup returns. */
  function NodesAt(entries: seq<Entry>, path: string): (r: seq<Node>)
    ensures |r| <= |entries|
  {
    if |entries| == 0 then []
    else
      var last := entries[|entries| - 1];
      NodesAt(entries[..|entries| - 1], path) + (if last.path == path then [last.node] else [])
  }

  /** Every node a path lookup returns is a stored node at that path. */
  lemma {:induction false} NodesAtMember(entries: seq<Entry>, path: string, n: Node) returns (k: nat)
    requires n in NodesAt(entries, path)
    ensures k < |entries| && entries[k].node == n && entries[k].path == path
  {
    var init := entries[..|entries| - 1];
    var last := entries[|entries| - 1];
    if n in NodesAt(init, path) {
      k := NodesAtMember(init, path, n);
      assert init[k] == entries[k];
    } else {
      k := |entries| - 1;
    }
  }

  /** Every stored node at `path` is returned by the lookup. */
  lemma {:induction false} NodesAtComplete(entries: seq<Entry>, path: string, k: nat)
    requires k < |entries| && entries[k].path == path
    ensures entries[k].node in NodesAt(entries, path)
  {
    var init := entries[..|entries| - 1];
    if k < |entries| - 1 {
      assert init[k] == entries[k];
      NodesAtComplete(init, path, k);
    }
  }

  /** The service's node tree. */
  class Store {
    var entries: seq<Entry>

    predicate Valid()
      reads this
    {
      ValidEntries(entries)
    }

    /** A service holding only the root folder. */
    constructor ()
      ensures entries == [] && Valid()
    {
      entries := [];
    }

    /** The path lookup (`structure_path_nodes`). */
    function PathNodes(path: string): (r: seq<Node>)
      reads this
      ensures forall n :: n in r ==> exists k :: 0 <= k < |entries| && entries[k].node == n && entries[k].path == path
    {
      var r := NodesAt(entries, path);
      assert forall n :: n in r ==> exists k :: 0 <= k < |entries| && entries[k].node == n && entries[k].path == path by {
        forall n | n in r
          ensures exists k :: 0 <= k < |entries| && entries[k].node == n && entries[k].path == path
        {
          var k := NodesAtMember(entries, path, n);
        }
      }
      r
    }

    /** `node_add` of a FOLDER: the new folder gets the next identifier and the
        path of its parent followed by "/" and its name. The service demands an
        existing parent. */
    method AddFolder(parentUid: string, name: string) returns (uid: string)
      requires Valid() && Known(entries, parentUid)
      modifies this
      ensures Valid()
      ensures uid == UidFor(|old(entries)|)
      ensures entries == old(entries) + [Entry(Node(uid, name, "FOLDER"), parentUid, PathOf(old(entries), parentUid) + "/" + name)]
      ensures IsFolderAt(entries, uid, PathOf(old(entries), parentUid) + "/" + name)
    {
      uid := UidFor(|entries|);
      var e := Entry(Node(uid, name, "FOLDER"), parentUid, PathOf(entries, parentUid) + "/" + name);
      entries := entries + [e];
      FindUid(entries, |entries| - 1);
    }
  }
}
