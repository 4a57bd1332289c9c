/**
 * The records parseFolder emits, as values. A node (a collection or a
 * folder) becomes one `request_group`, followed by the subtrees of the
 * folders its folders_order lists, taken in the order of the flat folder
 * list. `fuel` is the recursion depth still available: when it is used up
 * while a child still has to be visited, the walk fails, as the script
 * does when a cyclic folders_order exhausts its call stack.
 */
module FolderTree {
  import opened Wrappers
  import opened Ids
  import opened Schema

  /** `'fld_' + node.id.toId()`, the id of a node's request group. */
  function FolderId(node: Folder): (id: string)
    ensures 4 <= |id| <= 4 + |node.id| && id[..4] == "fld_" && '-' !in id[4..]
  {
    "fld_" + ToId(node.id)
  }

  /** The request group recorded for `node` when its parent id is `parent`. */
  function GroupOf(node: Folder, parent: Option<string>): (g: Resource)
    ensures g.RequestGroup? && g.Type() == "request_group"
    ensures g.id == FolderId(node) && g.parentId == parent
    ensures g.name == node.name && g.groupDescription == node.description
  {
    RequestGroup(FolderId(node), parent, node.name, node.description)
  }

  /** The node's folders_order lists `f`: the findIndex of its id is not -1. */
  predicate ChildOf(f: Folder, node: Folder) {
    f.id in node.foldersOrder
  }

  /**
   * parseFolder(node, folders) entered with `node.parentId == parent`:
   * the node's group first, then the subtrees of its listed children.
   */
  function EmitFolder(node: Folder, parent: Option<string>, folders: seq<Folder>, fuel: nat): (r: Result<seq<Resource>, ConvertError>)
    ensures r.Ok? ==> |r.value| >= 1 && r.value[0] == GroupOf(node, parent)
    ensures r.Ok? ==> forall k :: 0 <= k < |r.value| ==> r.value[k].RequestGroup?
    decreases fuel, |folders| + 1
  {
    match EmitChildren(node, folders, |folders|, fuel)
    case Err(e) => Err(e)
    case Ok(rest) => Ok([GroupOf(node, parent)] + rest)
  }

  /**
   * The forEach over the first `n` folders: each one the node lists is
   * given the node's group as parent and walked one level deeper.
   */
  function EmitChildren(node: Folder, folders: seq<Folder>, n: nat, fuel: nat): (r: Result<seq<Resource>, ConvertError>)
    requires n <= |folders|
    ensures r.Ok? ==> forall k :: 0 <= k < |r.value| ==> r.value[k].RequestGroup?
    decreases fuel, n
  {
    if n == 0 then Ok([])
    else
      match EmitChildren(node, folders, n - 1, fuel)
      case Err(e) => Err(e)
      case Ok(prev) =>
        var f := folders[n - 1];
        if !ChildOf(f, node) then Ok(prev)
        else if fuel == 0 then Err(RecursionTooDeep)
        else
          match EmitFolder(f, Some(FolderId(node)), folders, fuel - 1)
          case Err(e) => Err(e)
          case Ok(sub) => Ok(prev + sub)
  }

  /** Once the walk has failed, visiting more folders does not bring it back. */
  lemma {:induction false} EmitChildrenErrStays(node: Folder, folders: seq<Folder>, n: nat, m: nat, fuel: nat)
    requires n <= m <= |folders|
    requires EmitChildren(node, folders, n, fuel).Err?
    ensures EmitChildren(node, folders, m, fuel).Err?
    decreases m
  {
    if m > n {
      EmitChildrenErrStays(node, folders, n, m - 1, fuel);
    }
  }

  /** A walk can only fail by running out of depth. */
  lemma {:induction false} EmitFolderFailsOnlyByDepth(node: Folder, parent: Option<string>, folders: seq<Folder>, fuel: nat)
    ensures EmitFolder(node, parent, folders, fuel).Err? ==> EmitFolder(node, parent, folders, fuel).error == RecursionTooDeep
    decreases fuel, |folders| + 1
  {
    EmitChildrenFailsOnlyByDepth(node, folders, |folders|, fuel);
  }

  lemma {:induction false} EmitChildrenFailsOnlyByDepth(node: Folder, folders: seq<Folder>, n: nat, fuel: nat)
    requires n <= |folders|
    ensures EmitChildren(node, folders, n, fuel).Err? ==> EmitChildren(node, folders, n, fuel).error == RecursionTooDeep
    decreases fuel, n
  {
    if n > 0 {
      EmitChildrenFailsOnlyByDepth(node, folders, n - 1, fuel);
      if EmitChildren(node, folders, n - 1, fuel).Ok? && ChildOf(folders[n - 1], node) && fuel > 0 {
        EmitFolderFailsOnlyByDepth(folders[n - 1], Some(FolderId(node)), folders, fuel - 1);
      }
    }
  }

  /**
   * Every group of a walk names as parent either the id the walk was
   * entered with or a group emitted before it.
   */
  lemma {:induction false} EmitFolderLinked(node: Folder, p: string, folders: seq<Folder>, fuel: nat)
    requires EmitFolder(node, Some(p), folders, fuel).Ok?
    ensures Linked(EmitFolder(node, Some(p), folders, fuel).value, {p})
    decreases fuel, |folders| + 1
  {
    var head := [GroupOf(node, Some(p))];
    var rest := EmitChildren(node, folders, |folders|, fuel).value;
    assert ParentEarlier(head, 0, {p});
    assert Linked(head, {p});
    EmitChildrenLinked(node, folders, |folders|, fuel);
    assert FolderId(node) in IdSet(head) by {
      assert head[0].id == FolderId(node);
    }
    LinkedAppend(head, rest, {p}, {FolderId(node)});
  }

  lemma {:induction false} EmitChildrenLinked(node: Folder, folders: seq<Folder>, n: nat, fuel: nat)
    requires n <= |folders|
    requires EmitChildren(node, folders, n, fuel).Ok?
    ensures Linked(EmitChildren(node, folders, n, fuel).value, {FolderId(node)})
    decreases fuel, n
  {
    if n > 0 {
      var prev := EmitChildren(node, folders, n - 1, fuel).value;
      EmitChildrenLinked(node, folders, n - 1, fuel);
      var f := folders[n - 1];
      if ChildOf(f, node) {
        var sub := EmitFolder(f, Some(FolderId(node)), folders, fuel - 1).value;
        EmitFolderLinked(f, FolderId(node), folders, fuel - 1);
        LinkedAppend(prev, sub, {FolderId(node)}, {FolderId(node)});
      }
    }
  }

  /**
   * Every folder the node lists gets a group whose parent is the node's
   * group: a listed folder is never dropped.
   */
  lemma {:induction false} ListedChildrenEmitted(node: Folder, parent: Option<string>, folders: seq<Folder>, fuel: nat)
    requires EmitFolder(node, parent, folders, fuel).Ok?
    ensures forall i :: 0 <= i < |folders| && ChildOf(folders[i], node) ==>
      GroupOf(folders[i], Some(FolderId(node))) in EmitFolder(node, parent, folders, fuel).value
  {
    var out := EmitFolder(node, parent, folders, fuel).value;
    var rest := EmitChildren(node, folders, |folders|, fuel).value;
    assert out == [GroupOf(node, parent)] + rest;
    forall i | 0 <= i < |folders| && ChildOf(folders[i], node)
      ensures GroupOf(folders[i], Some(FolderId(node))) in out
    {
      ChildrenKeep(node, folders, i + 1, |folders|, fuel);
      var sub := EmitFolder(folders[i], Some(FolderId(node)), folders, fuel - 1).value;
      assert sub[0] in EmitChildren(node, folders, i + 1, fuel).value;
    }
  }

  /** The records of a successful walk over a prefix stay in the walk over a longer prefix. */
  lemma {:induction false} ChildrenKeep(node: Folder, folders: seq<Folder>, n: nat, m: nat, fuel: nat)
    requires n <= m <= |folders|
    requires EmitChildren(node, folders, m, fuel).Ok?
    ensures EmitChildren(node, folders, n, fuel).Ok?
    ensures EmitChildren(node, folders, n, fuel).value <= EmitChildren(node, folders, m, fuel).value
    decreases m
  {
    if n < m {
      ChildrenKeep(node, folders, n, m - 1, fuel);
    }
  }

  /** The group ids of the folders in the flat list. */
  function FolderIds(folders: seq<Folder>): set<string> {
    set f | f in folders :: FolderId(f)
  }

  /**
   * A walk invents nothing: each record it emits is the group of the node
   * or of a folder in the flat list.
   */
  lemma {:induction false} EmitFolderIds(node: Folder, parent: Option<string>, folders: seq<Folder>, fuel: nat)
    requires EmitFolder(node, parent, folders, fuel).Ok?
    ensures IdSet(EmitFolder(node, parent, folders, fuel).value) <= {FolderId(node)} + FolderIds(folders)
    decreases fuel, |folders| + 1
  {
    var head := [GroupOf(node, parent)];
    EmitChildrenIds(node, folders, |folders|, fuel);
    IdSetAppend(head, EmitChildren(node, folders, |folders|, fuel).value);
  }

  lemma {:induction false} EmitChildrenIds(node: Folder, folders: seq<Folder>, n: nat, fuel: nat)
    requires n <= |folders|
    requires EmitChildren(node, folders, n, fuel).Ok?
    ensures IdSet(EmitChildren(node, folders, n, fuel).value) <= FolderIds(folders)
    decreases fuel, n
  {
    if n > 0 {
      var prev := EmitChildren(node, folders, n - 1, fuel).value;
      EmitChildrenIds(node, folders, n - 1, fuel);
      var f := folders[n - 1];
      if ChildOf(f, node) {
        var sub := EmitFolder(f, Some(FolderId(node)), folders, fuel - 1).value;
        EmitFolderIds(f, Some(FolderId(node)), folders, fuel - 1);
        assert FolderId(f) in FolderIds(folders);
        IdSetAppend(prev, sub);
      }
    }
  }

  /**
   * `r` is the group of folder `i` of the flat list, placed under the group
   * of the folder that lists it: the node when `j == -1`, folder `j` of the
   * list otherwise.
   */
  predicate ListedUnderAt(r: Resource, node: Folder, folders: seq<Folder>, i: int, j: int) {
    0 <= i < |folders| && -1 <= j < |folders| &&
    var lister := if j == -1 then node else folders[j];
    ChildOf(folders[i], lister) && r == GroupOf(folders[i], Some(FolderId(lister)))
  }

  /** `r` is the group of some folder of the list, under the group of the folder listing it. */
  ghost predicate ListedUnder(r: Resource, node: Folder, folders: seq<Folder>) {
    exists i, j :: ListedUnderAt(r, node, folders, i, j)
  }

  /** From index `from` on, every record is a listed folder's group under its lister's group. */
  ghost predicate ListedFrom(rs: seq<Resource>, from: nat, node: Folder, folders: seq<Folder>) {
    forall k :: from <= k < |rs| ==> ListedUnder(rs[k], node, folders)
  }

  /**
   * Every group after the node's own belongs to a folder of the flat list
   * that the node or some folder of the list names in its folders_order,
   * and sits under that lister's group: nothing else is attached.
   */
  lemma {:induction false} EmitFolderParents(node: Folder, parent: Option<string>, folders: seq<Folder>, fuel: nat)
    requires EmitFolder(node, parent, folders, fuel).Ok?
    ensures ListedFrom(EmitFolder(node, parent, folders, fuel).value, 1, node, folders)
    decreases fuel, |folders| + 1
  {
    var out := EmitFolder(node, parent, folders, fuel).value;
    var rest := EmitChildren(node, folders, |folders|, fuel).value;
    EmitChildrenParents(node, folders, |folders|, fuel);
    assert out == [GroupOf(node, parent)] + rest;
    forall k | 1 <= k < |out| ensures ListedUnder(out[k], node, folders) {
      assert out[k] == rest[k - 1];
    }
    assert ListedFrom(out, 1, node, folders);
  }

  lemma {:induction false} EmitChildrenParents(node: Folder, folders: seq<Folder>, n: nat, fuel: nat)
    requires n <= |folders|
    requires EmitChildren(node, folders, n, fuel).Ok?
    ensures ListedFrom(EmitChildren(node, folders, n, fuel).value, 0, node, folders)
    decreases fuel, n
  {
    if n > 0 {
      var prev := EmitChildren(node, folders, n - 1, fuel).value;
      EmitChildrenParents(node, folders, n - 1, fuel);
      var f := folders[n - 1];
      if !ChildOf(f, node) {
        var out := EmitChildren(node, folders, n, fuel).value;
        assert out == prev;
        forall k | 0 <= k < |out| ensures ListedUnder(out[k], node, folders) {
          assert out[k] == prev[k];
        }
      } else {
        var sub := EmitFolder(f, Some(FolderId(node)), folders, fuel - 1).value;
        EmitFolderParents(f, Some(FolderId(node)), folders, fuel - 1);
        var out := prev + sub;
        assert EmitChildren(node, folders, n, fuel) == Ok(out);
        forall k | 0 <= k < |out| ensures ListedUnder(out[k], node, folders) {
          if k < |prev| {
            assert out[k] == prev[k];
          } else if k == |prev| {
            assert out[k] == sub[0];
            assert ListedUnderAt(out[k], node, folders, n - 1, -1);
          } else {
            assert out[k] == sub[k - |prev|];
            var i, j :| ListedUnderAt(sub[k - |prev|], f, folders, i, j);
            if j == -1 {
              assert ListedUnderAt(out[k], node, folders, i, n - 1);
            } else {
              assert ListedUnderAt(out[k], node, folders, i, j);
            }
          }
        }
        assert ListedFrom(out, 0, node, folders);
      }
    }
  }

  /**
   * A folder that lists itself in its own folders_order sends the walk
   * round forever: however deep the stack, the walk from it fails.
   */
  lemma {:induction false} SelfListedFolderFails(folders: seq<Folder>, i: nat, parent: Option<string>, fuel: nat)
    requires i < |folders| && ChildOf(folders[i], folders[i])
    ensures EmitFolder(folders[i], parent, folders, fuel).Err?
    decreases fuel
  {
    var f := folders[i];
    if EmitChildren(f, folders, i, fuel).Ok? {
      if fuel > 0 {
        SelfListedFolderFails(folders, i, Some(FolderId(f)), fuel - 1);
      }
      assert EmitChildren(f, folders, i + 1, fuel).Err?;
      EmitChildrenErrStays(f, folders, i + 1, |folders|, fuel);
    } else {
      EmitChildrenErrStays(f, folders, i, |folders|, fuel);
    }
  }

  /**
   * More depth changes nothing once a walk has succeeded: its records are
   * those of the script whatever the stack allows beyond what it used.
   */
  lemma {:induction false} EmitFolderMoreFuel(node: Folder, parent: Option<string>, folders: seq<Folder>, fuel: nat, more: nat)
    requires fuel <= more && EmitFolder(node, parent, folders, fuel).Ok?
    ensures EmitFolder(node, parent, folders, more) == EmitFolder(node, parent, folders, fuel)
    decreases fuel, |folders| + 1
  {
    EmitChildrenMoreFuel(node, folders, |folders|, fuel, more);
  }

  lemma {:induction false} EmitChildrenMoreFuel(node: Folder, folders: seq<Folder>, n: nat, fuel: nat, more: nat)
    requires n <= |folders| && fuel <= more && EmitChildren(node, folders, n, fuel).Ok?
    ensures EmitChildren(node, folders, n, more) == EmitChildren(node, folders, n, fuel)
    decreases fuel, n
  {
    if n > 0 {
      ChildrenKeep(node, folders, n - 1, n, fuel);
      EmitChildrenMoreFuel(node, folders, n - 1, fuel, more);
      var f := folders[n - 1];
      if ChildOf(f, node) {
        EmitFolderMoreFuel(f, Some(FolderId(node)), folders, fuel - 1, more - 1);
      }
    }
  }

  /**
   * `rank` decreases along every listing the walk can follow from the node:
   * `reach` holds the indices of the folders the node lists and is closed
   * under listing, and inside it every listed folder ranks below its lister.
   * Folders outside `reach` are never visited, so their listings are free.
   */
  ghost predicate RankedBy(rank: Folder -> nat, node: Folder, folders: seq<Folder>, reach: set<int>) {
    (forall j :: 0 <= j < |folders| && ChildOf(folders[j], node) ==> j in reach && rank(folders[j]) < rank(node)) &&
    (forall i, j :: i in reach && 0 <= i < |folders| && 0 <= j < |folders| && ChildOf(folders[j], folders[i]) ==>
      j in reach && rank(folders[j]) < rank(folders[i]))
  }

  /**
   * Without a cycle among the listings the walk follows, it succeeds: a
   * stack one deeper than the node's rank is enough.
   */
  lemma {:induction false} EmitFolderSucceeds(node: Folder, parent: Option<string>, folders: seq<Folder>, fuel: nat, rank: Folder -> nat, reach: set<int>)
    requires RankedBy(rank, node, folders, reach) && rank(node) < fuel
    ensures EmitFolder(node, parent, folders, fuel).Ok?
    decreases fuel, |folders| + 1
  {
    EmitChildrenSucceed(node, folders, |folders|, fuel, rank, reach);
  }

  lemma {:induction false} EmitChildrenSucceed(node: Folder, folders: seq<Folder>, n: nat, fuel: nat, rank: Folder -> nat, reach: set<int>)
    requires n <= |folders| && RankedBy(rank, node, folders, reach) && rank(node) < fuel
    ensures EmitChildren(node, folders, n, fuel).Ok?
    decreases fuel, n
  {
    if n > 0 {
      EmitChildrenSucceed(node, folders, n - 1, fuel, rank, reach);
      var f := folders[n - 1];
      if ChildOf(f, node) {
        assert n - 1 in reach && rank(f) < rank(node);
        assert RankedBy(rank, f, folders, reach) by {
          forall j | 0 <= j < |folders| && ChildOf(folders[j], f) ensures j in reach && rank(folders[j]) < rank(f) {
            assert ChildOf(folders[j], folders[n - 1]);
          }
        }
        EmitFolderSucceeds(f, Some(FolderId(node)), folders, fuel - 1, rank, reach);
      }
    }
  }

  /**
   * Folders the walk never reaches may list each other in a cycle: with
   * the collection listing only `a`, which lists nothing, and `b` and `c`
   * listing each other, a fuel of 2 is enough.
   */
  lemma UnreachedCycleIsHarmless(root: Folder, a: Folder, b: Folder, c: Folder, parent: Option<string>)
    requires root.foldersOrder == [a.id] && a.foldersOrder == []
    requires b.foldersOrder == [c.id] && c.foldersOrder == [b.id]
    requires a.id != b.id && a.id != c.id
    ensures EmitFolder(root, parent, [a, b, c], 2).Ok?
  {
    var folders := [a, b, c];
    var rank := (f: Folder) => if f == root then 1 else 0;
    assert RankedBy(rank, root, folders, {0}) by {
      forall j | 0 <= j < |folders| && ChildOf(folders[j], root) ensures j in {0} && rank(folders[j]) < rank(root) {
        assert folders[j].id == a.id;
      }
    }
    EmitFolderSucceeds(root, parent, folders, 2, rank, {0});
  }

  /**
   * A collection listing one folder `f1`, which lists nothing, gives the
   * collection's group and then `f1`'s group under it.
   */
  lemma OneListedFolder(root: Folder, f1: Folder, parent: Option<string>)
    requires root.foldersOrder == [f1.id] && f1.foldersOrder == []
    ensures EmitFolder(root, parent, [f1], 1) == Ok([GroupOf(root, parent), GroupOf(f1, Some(FolderId(root)))])
  {
    var g0, g1 := GroupOf(root, parent), GroupOf(f1, Some(FolderId(root)));
    assert ChildOf(f1, root);
    assert !ChildOf(f1, f1);
    assert EmitChildren(f1, [f1], 1, 0) == Ok([]);
    assert EmitFolder(f1, Some(FolderId(root)), [f1], 0) == Ok([g1]) by {
      assert [g1] + [] == [g1];
    }
    assert EmitChildren(root, [f1], 1, 1) == Ok([g1]) by {
      assert EmitChildren(root, [f1], 0, 1) == Ok([]);
      assert [] + [g1] == [g1];
    }
    assert [g0] + [g1] == [g0, g1];
  }
}
