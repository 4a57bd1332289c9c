/**
 * The script itself: the three root records, the walk over every
 * collection (its folder tree, then its requests), the environments, and
 * the export envelope. The module-level `resources` array and the random
 * source become the fields of a `Converter`; the output file is its
 * `resources` when the walk succeeds.
 */
module Conversion {
  import opened Wrappers
  import opened Ids
  import opened Schema
  import opened RequestMapper
  import opened FolderTree
  import opened Environments

  // ------------------------------------------------------------ root records

  /** WORKDIR: `'wrk_' + generateId(20)`, the first twenty draws. */
  function WorkspaceId(tape: Tape): (id: string)
    ensures PrefixedId(id, "wrk_", 20)
  {
    "wrk_" + IdFromTape(tape, 0, 20)
  }

  /** ENVBASE: `'env_' + generateId(20)`, the next twenty draws. */
  function EnvBaseId(tape: Tape): (id: string)
    ensures PrefixedId(id, "env_", 20)
  {
    "env_" + IdFromTape(tape, 20, 20)
  }

  /** The api spec's `'spc_' + generateId(20)`, drawn third. */
  function ApiSpecId(tape: Tape): (id: string)
    ensures PrefixedId(id, "spc_", 20)
  {
    "spc_" + IdFromTape(tape, 40, 20)
  }

  /** The three root ids differ, whatever the draws: their prefixes differ. */
  lemma RootIdsDistinct(tape: Tape)
    ensures WorkspaceId(tape) != EnvBaseId(tape)
    ensures WorkspaceId(tape) != ApiSpecId(tape)
    ensures EnvBaseId(tape) != ApiSpecId(tape)
  {
    assert WorkspaceId(tape)[1] == 'r' && EnvBaseId(tape)[1] == 'n' && ApiSpecId(tape)[1] == 'p';
  }

  /** The draws the root ids take; request pair ids start after them. */
  const RootDraws: nat := 60

  /**
   * The workspace, the api spec and the base environment, in that order;
   * `timestamp` is the ISO date of the run.
   */
  function RootResources(tape: Tape, timestamp: string): (rs: seq<Resource>)
    ensures |rs| == 3 && rs[0].Workspace? && rs[1].ApiSpec? && rs[2].Environment?
    ensures rs[0].Parent().None? && rs[1].Parent() == rs[2].Parent() == Some(rs[0].id)
    ensures Linked(rs, {})
  {
    var rs := [
      Workspace(WorkspaceId(tape), "Postman Dump " + timestamp),
      ApiSpec(ApiSpecId(tape), Some(WorkspaceId(tape)), "Insomnia", "", "yaml"),
      Environment(EnvBaseId(tape), Some(WorkspaceId(tape)), "Base Environment", map[])
    ];
    assert ParentEarlier(rs, 1, {}) by { assert rs[0].id == WorkspaceId(tape); }
    assert ParentEarlier(rs, 2, {}) by { assert rs[0].id == WorkspaceId(tape); }
    rs
  }

  // ------------------------------------------------------- requests, in order

  /** The draws the requests take, one mapRequest after another. */
  function RequestsDraws(reqs: seq<PostmanRequest>): nat {
    if reqs == [] then 0 else RequestsDraws(reqs[..|reqs| - 1]) + RequestDraws(reqs[|reqs| - 1])
  }

  /** A request mapping: a request and the draw its pair ids start at give its record. */
  type RequestMap = (PostmanRequest, nat) -> Resource

  /** mapRequest with the random source fixed. */
  function RequestMapping(tape: Tape): RequestMap {
    (req: PostmanRequest, pos: nat) => MapRequest(req, tape, pos)
  }

  /**
   * The records the requests' forEach pushes when `mapping` maps one request,
   * the first reading the tape from `cursor`.
   */
  function RequestRecords(reqs: seq<PostmanRequest>, cursor: nat, mapping: RequestMap): (rs: seq<Resource>)
    ensures |rs| == |reqs|
  {
    if reqs == [] then []
    else RequestRecords(reqs[..|reqs| - 1], cursor, mapping) + [mapping(reqs[|reqs| - 1], cursor + RequestsDraws(reqs[..|reqs| - 1]))]
  }

  /** Request `i` is mapped reading the tape from where the requests before it stopped. */
  lemma {:induction false} RequestRecordsAt(reqs: seq<PostmanRequest>, cursor: nat, mapping: RequestMap, i: nat)
    requires i < |reqs|
    ensures RequestRecords(reqs, cursor, mapping)[i] == mapping(reqs[i], cursor + RequestsDraws(reqs[..i]))
  {
    var init := reqs[..|reqs| - 1];
    if i < |init| {
      RequestRecordsAt(init, cursor, mapping, i);
      assert init[..i] == reqs[..i];
    } else {
      assert reqs[..i] == init;
    }
  }

  /** One more request appends its record and advances the draws by its own. */
  lemma RequestRecordsSnoc(reqs: seq<PostmanRequest>, n: nat, cursor: nat, mapping: RequestMap)
    requires n < |reqs|
    ensures RequestRecords(reqs[..n + 1], cursor, mapping) ==
      RequestRecords(reqs[..n], cursor, mapping) + [mapping(reqs[n], cursor + RequestsDraws(reqs[..n]))]
    ensures RequestsDraws(reqs[..n + 1]) == RequestsDraws(reqs[..n]) + RequestDraws(reqs[n])
  {
    assert reqs[..n + 1][..n] == reqs[..n];
  }

  // ------------------------------------------------------------ collections

  /** parseCollection: the collection's group tree under the workspace, then its requests. */
  function CollectionRecords(c: PostmanCollection, workspace: string, cursor: nat, mapping: RequestMap, fuel: nat): (r: Result<seq<Resource>, ConvertError>)
    ensures r.Ok? ==> |r.value| >= 1 + |c.requests| && r.value[0] == GroupOf(c.node, Some(workspace))
    ensures r.Ok? ==> r.value[|r.value| - |c.requests|..] == RequestRecords(c.requests, cursor, mapping)
    ensures r.Err? ==> r.error == RecursionTooDeep
  {
    EmitFolderFailsOnlyByDepth(c.node, Some(workspace), c.folders, fuel);
    match EmitFolder(c.node, Some(workspace), c.folders, fuel)
    case Err(e) => Err(e)
    case Ok(groups) => Ok(groups + RequestRecords(c.requests, cursor, mapping))
  }

  /**
   * The collections' forEach from collection `i` on, `done` being the
   * records pushed so far and `cursor` the next unread draw: each
   * collection's records follow those of the ones before it, and the first
   * failure ends the run.
   */
  function CollectionsFrom(cs: seq<PostmanCollection>, i: nat, done: seq<Resource>, cursor: nat,
                           workspace: string, mapping: RequestMap, fuel: nat): (r: Result<seq<Resource>, ConvertError>)
    requires i <= |cs|
    ensures r.Ok? ==> done <= r.value
    ensures r.Err? ==> r.error == RecursionTooDeep
    decreases |cs| - i
  {
    if i == |cs| then Ok(done)
    else
      match CollectionRecords(cs[i], workspace, cursor, mapping, fuel)
      case Err(e) => Err(e)
      case Ok(rs) => CollectionsFrom(cs, i + 1, done + rs, cursor + RequestsDraws(cs[i].requests), workspace, mapping, fuel)
  }

  // ------------------------------------------------------------ environments

  /** The environments' forEach: one record per environment, in order, under `baseId`. */
  function EnvironmentRecords(envs: seq<PostmanEnvironment>, baseId: string): (rs: seq<Resource>)
    ensures |rs| == |envs|
    ensures forall i :: 0 <= i < |envs| ==> rs[i] == MapEnvironment(envs[i], baseId)
  {
    if envs == [] then []
    else EnvironmentRecords(envs[..|envs| - 1], baseId) + [MapEnvironment(envs[|envs| - 1], baseId)]
  }

  // ------------------------------------------------------------ the whole run

  /**
   * The export the script writes for `dump` (None when the backup is not a
   * JSON document), given the random tape and the date of the run; `fuel`
   * is the depth of folder nesting the call stack allows.
   */
  function ConvertDump(dump: Option<PostmanDump>, tape: Tape, timestamp: string, fuel: nat): (r: Result<Export, ConvertError>)
    ensures r.Ok? ==> dump.Some? && dump.value.version == 1
    ensures r.Ok? ==> r.value.exportType == "export" && r.value.exportFormat == 4
    ensures r.Ok? ==> RootResources(tape, timestamp) <= r.value.resources
    ensures r == Err(RecursionTooDeep) ==> dump.Some? && dump.value.version == 1
  {
    if dump.None? then Err(InvalidJson)
    else if dump.value.version != 1 then Err(VersionNotSupported)
    else
      match CollectionsFrom(dump.value.collections, 0, RootResources(tape, timestamp), RootDraws,
                            WorkspaceId(tape), RequestMapping(tape), fuel)
      case Err(e) => Err(e)
      case Ok(rs) => Ok(Export("export", 4, rs + EnvironmentRecords(dump.value.environments, EnvBaseId(tape))))
  }

  /** Every folder object of the collections. */
  function AllObjects(cs: seq<PostmanCollection>): set<Folder> {
    set c, f | c in cs && f in c.Objects() :: f
  }

  /** The state of one run: the records pushed so far and the next unread draw. */
  class Converter {
    const tape: Tape
    const workspaceId: string
    const envBaseId: string
    /** mapRequest, reading `tape`. */
    const mapRequest: RequestMap
    var cursor: nat
    var resources: seq<Resource>

    /** The three root records, their ids drawn in the script's order. */
    constructor (tape: Tape, timestamp: string)
      ensures this.tape == tape && workspaceId == WorkspaceId(tape) && envBaseId == EnvBaseId(tape)
      ensures mapRequest == RequestMapping(tape)
      ensures cursor == RootDraws && resources == RootResources(tape, timestamp)
    {
      this.tape := tape;
      mapRequest := RequestMapping(tape);
      var wrk := GenerateId(tape, 0, 20);
      var env := GenerateId(tape, 20, 20);
      var spc := GenerateId(tape, 40, 20);
      workspaceId := "wrk_" + wrk;
      envBaseId := "env_" + env;
      resources := [
        Workspace("wrk_" + wrk, "Postman Dump " + timestamp),
        ApiSpec("spc_" + spc, Some("wrk_" + wrk), "Insomnia", "", "yaml"),
        Environment("env_" + env, Some("wrk_" + wrk), "Base Environment", map[])
      ];
      cursor := RootDraws;
    }

    /**
     * parseFolder: pushes the node's group with the parent id the node
     * holds on entry, then, for each folder of the flat list that the node
     * lists, points the folder at the node's group and walks it. `ok` is
     * false when the depth runs out. The parent id a folder is left with
     * is the parent of one of its groups in the output.
     */
    method ParseFolder(node: Folder, folders: seq<Folder>, fuel: nat) returns (ok: bool)
      modifies this`resources, set f | f in folders
      ensures ok == EmitFolder(node, old(node.parentId), folders, fuel).Ok?
      ensures ok ==> resources == old(resources) + EmitFolder(node, old(node.parentId), folders, fuel).value
      ensures ok ==> forall f :: f in folders && f.parentId != old(f.parentId) ==> GroupOf(f, f.parentId) in resources
      decreases fuel
    {
      var parent := node.parentId;
      resources := resources + [GroupOf(node, parent)];
      ghost var start := resources;
      if |node.foldersOrder| == 0 {
        NoListedChildren(node, folders, |folders|, fuel);
        return true;
      }
      var i := 0;
      while i < |folders|
        invariant 0 <= i <= |folders|
        invariant EmitChildren(node, folders, i, fuel).Ok?
        invariant resources == start + EmitChildren(node, folders, i, fuel).value
        invariant forall f :: f in folders && f.parentId != old(f.parentId) ==> GroupOf(f, f.parentId) in resources
      {
        var folder := folders[i];
        if folder.id in node.foldersOrder {
          if fuel == 0 {
            EmitChildrenErrStays(node, folders, i + 1, |folders|, fuel);
            return false;
          }
          ghost var before := resources;
          folder.parentId := Some(FolderId(node));
          ok := ParseFolder(folder, folders, fuel - 1);
          if !ok {
            EmitChildrenErrStays(node, folders, i + 1, |folders|, fuel);
            return false;
          }
          assert GroupOf(folder, Some(FolderId(node))) in resources by {
            assert resources[|before|] == GroupOf(folder, Some(FolderId(node)));
          }
          assert forall g :: g in before ==> g in resources;
        }
        i := i + 1;
      }
      return true;
    }

    /**
     * parseCollection: points the collection at the workspace, walks its
     * folder tree, then pushes its requests in order, each reading the
     * draws after the previous one's.
     */
    method ParseCollection(c: PostmanCollection, fuel: nat) returns (ok: bool)
      modifies this`resources, this`cursor, c.Objects()
      ensures ok == CollectionRecords(c, workspaceId, old(cursor), mapRequest, fuel).Ok?
      ensures ok ==> resources == old(resources) + CollectionRecords(c, workspaceId, old(cursor), mapRequest, fuel).value
      ensures ok ==> cursor == old(cursor) + RequestsDraws(c.requests)
      ensures ok ==> forall f :: f in c.Objects() && f.parentId != old(f.parentId) ==> GroupOf(f, f.parentId) in resources
    {
      c.node.parentId := Some(workspaceId);
      ghost var walked := resources;
      ok := ParseFolder(c.node, c.folders, fuel);
      if !ok {
        return;
      }
      assert GroupOf(c.node, Some(workspaceId)) in resources by {
        assert resources[|walked|] == GroupOf(c.node, Some(workspaceId));
      }
      PushRequests(c.requests);
    }

    /** The requests' forEach: each request mapped with the draws after the previous one's. */
    method PushRequests(reqs: seq<PostmanRequest>)
      modifies this`resources, this`cursor
      ensures resources == old(resources) + RequestRecords(reqs, old(cursor), mapRequest)
      ensures cursor == old(cursor) + RequestsDraws(reqs)
    {
      for i := 0 to |reqs|
        invariant resources == old(resources) + RequestRecords(reqs[..i], old(cursor), mapRequest)
        invariant cursor == old(cursor) + RequestsDraws(reqs[..i])
      {
        RequestRecordsSnoc(reqs, i, old(cursor), mapRequest);
        resources := resources + [mapRequest(reqs[i], cursor)];
        cursor := cursor + RequestDraws(reqs[i]);
      }
      assert reqs[..|reqs|] == reqs;
    }

    /**
     * The collections' forEach: each collection parsed after the ones before
     * it; `ok` is false as soon as one runs out of depth.
     */
    method ParseCollections(cs: seq<PostmanCollection>, fuel: nat) returns (ok: bool)
      modifies this`resources, this`cursor, AllObjects(cs)
      ensures ok == CollectionsFrom(cs, 0, old(resources), old(cursor), workspaceId, mapRequest, fuel).Ok?
      ensures ok ==> resources == CollectionsFrom(cs, 0, old(resources), old(cursor), workspaceId, mapRequest, fuel).value
      ensures !ok ==> CollectionsFrom(cs, 0, old(resources), old(cursor), workspaceId, mapRequest, fuel).error == RecursionTooDeep
    {
      ghost var outcome := CollectionsFrom(cs, 0, resources, cursor, workspaceId, mapRequest, fuel);
      for i := 0 to |cs|
        invariant CollectionsFrom(cs, i, resources, cursor, workspaceId, mapRequest, fuel) == outcome
      {
        assert cs[i].Objects() <= AllObjects(cs);
        ghost var done, start := resources, cursor;
        ok := ParseCollection(cs[i], fuel);
        if !ok {
          return;
        }
        CollectionsFromStep(cs, i, done, start, resources, cursor, workspaceId, mapRequest, fuel);
      }
      ok := true;
    }

    /** The environments' forEach: one record per environment under the base environment. */
    method AddEnvironments(envs: seq<PostmanEnvironment>)
      modifies this`resources
      ensures resources == old(resources) + EnvironmentRecords(envs, envBaseId)
    {
      for i := 0 to |envs|
        invariant resources == old(resources) + EnvironmentRecords(envs[..i], envBaseId)
      {
        var env := envs[i];
        var data := BuildEnvData(env.values);
        assert envs[..i + 1][..i] == envs[..i];
        resources := resources + [Environment("env_" + ToId(env.id), Some(envBaseId), env.name, data)];
      }
      assert envs[..|envs|] == envs;
    }
  }

  /** One step of the collections' forEach, when collection `i` succeeds. */
  lemma CollectionsFromStep(cs: seq<PostmanCollection>, i: nat, done: seq<Resource>, cursor: nat,
                            after: seq<Resource>, next: nat, workspace: string, mapping: RequestMap, fuel: nat)
    requires i < |cs| && CollectionRecords(cs[i], workspace, cursor, mapping, fuel).Ok?
    requires after == done + CollectionRecords(cs[i], workspace, cursor, mapping, fuel).value
    requires next == cursor + RequestsDraws(cs[i].requests)
    ensures CollectionsFrom(cs, i, done, cursor, workspace, mapping, fuel) ==
            CollectionsFrom(cs, i + 1, after, next, workspace, mapping, fuel)
  {
    var rs := CollectionRecords(cs[i], workspace, cursor, mapping, fuel).value;
    assert after == done + rs;
  }

  /**
   * The whole script: the version check, the roots, every collection, every
   * environment, and the export envelope that is written out.
   */
  method Convert(dump: Option<PostmanDump>, tape: Tape, timestamp: string, fuel: nat) returns (r: Result<Export, ConvertError>)
    modifies if dump.Some? then AllObjects(dump.value.collections) else {}
    ensures r == ConvertDump(dump, tape, timestamp, fuel)
  {
    if dump.None? {
      return Err(InvalidJson);
    }
    if dump.value.version != 1 {
      return Err(VersionNotSupported);
    }
    var conv := new Converter(tape, timestamp);
    var ok := conv.ParseCollections(dump.value.collections, fuel);
    if !ok {
      return Err(RecursionTooDeep);
    }
    conv.AddEnvironments(dump.value.environments);
    r := Ok(Export("export", 4, conv.resources));
  }

  /** A node with an empty folders_order emits no children. */
  lemma {:induction false} NoListedChildren(node: Folder, folders: seq<Folder>, n: nat, fuel: nat)
    requires |node.foldersOrder| == 0 && n <= |folders|
    ensures EmitChildren(node, folders, n, fuel) == Ok([])
    decreases n
  {
    if n > 0 {
      NoListedChildren(node, folders, n - 1, fuel);
    }
  }

  // ------------------------------------------------------------ properties

  /** A `request` record with a parent. */
  predicate ParentedRequest(r: Resource) {
    r.Request? && r.parentId.Some?
  }

  /** The mapping only ever produces `request` records with a parent. */
  ghost predicate MapsToRequests(mapping: RequestMap) {
    forall req, pos :: ParentedRequest(mapping(req, pos))
  }

  lemma RequestMappingMapsToRequests(tape: Tape)
    ensures MapsToRequests(RequestMapping(tape))
  {
    forall req, pos ensures ParentedRequest(RequestMapping(tape)(req, pos)) {
      var r := MapRequest(req, tape, pos);
    }
  }

  lemma RequestRecordsAreRequests(reqs: seq<PostmanRequest>, cursor: nat, mapping: RequestMap)
    requires MapsToRequests(mapping)
    ensures forall k :: 0 <= k < |reqs| ==> ParentedRequest(RequestRecords(reqs, cursor, mapping)[k])
  {
    forall k | 0 <= k < |reqs| ensures ParentedRequest(RequestRecords(reqs, cursor, mapping)[k]) {
      RequestRecordsAt(reqs, cursor, mapping, k);
    }
  }

  /** Records a collection walk may add: groups and requests, never a workspace or environment. */
  predicate TreeRecord(r: Resource) {
    r.RequestGroup? || ParentedRequest(r)
  }

  /**
   * The collections' forEach only appends: what was pushed before is kept,
   * and every new record is a group or a request.
   */
  lemma {:induction false} CollectionsFromAppends(cs: seq<PostmanCollection>, i: nat, done: seq<Resource>, cursor: nat,
                                                  workspace: string, mapping: RequestMap, fuel: nat)
    requires i <= |cs| && MapsToRequests(mapping)
    requires CollectionsFrom(cs, i, done, cursor, workspace, mapping, fuel).Ok?
    ensures var out := CollectionsFrom(cs, i, done, cursor, workspace, mapping, fuel).value;
      done <= out && forall k :: |done| <= k < |out| ==> TreeRecord(out[k])
    decreases |cs| - i
  {
    if i < |cs| {
      var c := cs[i];
      var groups := EmitFolder(c.node, Some(workspace), c.folders, fuel).value;
      var reqs := RequestRecords(c.requests, cursor, mapping);
      RequestRecordsAreRequests(c.requests, cursor, mapping);
      var next := done + (groups + reqs);
      assert forall k :: |done| <= k < |next| ==> TreeRecord(next[k]) by {
        forall k | |done| <= k < |next| ensures TreeRecord(next[k]) {
          if k < |done| + |groups| {
            assert next[k] == groups[k - |done|];
          } else {
            assert next[k] == reqs[k - |done| - |groups|];
          }
        }
      }
      var after := cursor + RequestsDraws(c.requests);
      assert CollectionRecords(c, workspace, cursor, mapping, fuel) == Ok(groups + reqs);
      CollectionsFromStep(cs, i, done, cursor, next, after, workspace, mapping, fuel);
      CollectionsFromAppends(cs, i + 1, next, after, workspace, mapping, fuel);
      var out := CollectionsFrom(cs, i + 1, next, after, workspace, mapping, fuel).value;
      forall k | |done| <= k < |out| ensures TreeRecord(out[k]) {
        if k < |next| {
          assert out[k] == next[k];
        }
      }
    }
  }

  /**
   * The collections' forEach keeps parents linked: each group names the
   * workspace or a group pushed before it.
   */
  lemma {:induction false} CollectionsFromLinked(cs: seq<PostmanCollection>, i: nat, done: seq<Resource>, cursor: nat,
                                                 workspace: string, mapping: RequestMap, fuel: nat)
    requires i <= |cs| && MapsToRequests(mapping)
    requires Linked(done, {}) && workspace in IdSet(done)
    requires CollectionsFrom(cs, i, done, cursor, workspace, mapping, fuel).Ok?
    ensures Linked(CollectionsFrom(cs, i, done, cursor, workspace, mapping, fuel).value, {})
    decreases |cs| - i
  {
    if i < |cs| {
      var c := cs[i];
      var groups := EmitFolder(c.node, Some(workspace), c.folders, fuel).value;
      var reqs := RequestRecords(c.requests, cursor, mapping);
      EmitFolderLinked(c.node, workspace, c.folders, fuel);
      RequestRecordsAreRequests(c.requests, cursor, mapping);
      assert Linked(reqs, {});
      LinkedAppend(groups, reqs, {workspace}, {});
      LinkedAppend(done, groups + reqs, {}, {workspace});
      var next := done + (groups + reqs);
      IdSetAppend(done, groups + reqs);
      assert CollectionRecords(c, workspace, cursor, mapping, fuel) == Ok(groups + reqs);
      CollectionsFromStep(cs, i, done, cursor, next, cursor + RequestsDraws(c.requests), workspace, mapping, fuel);
      CollectionsFromLinked(cs, i + 1, next, cursor + RequestsDraws(c.requests), workspace, mapping, fuel);
    }
  }

  /** The environments' records are environments that each name the base environment. */
  lemma EnvironmentRecordsLinked(envs: seq<PostmanEnvironment>, baseId: string)
    ensures forall k :: 0 <= k < |envs| ==>
      EnvironmentRecords(envs, baseId)[k].Environment? && EnvironmentRecords(envs, baseId)[k].Parent() == Some(baseId)
    ensures Linked(EnvironmentRecords(envs, baseId), {baseId})
  {
    var rs := EnvironmentRecords(envs, baseId);
    forall k | 0 <= k < |rs| ensures rs[k].Environment? && rs[k].Parent() == Some(baseId) {
      assert rs[k] == MapEnvironment(envs[k], baseId);
    }
    forall k | 0 <= k < |rs| ensures ParentEarlier(rs, k, {baseId}) {
    }
  }

  /** A conversion fails without output when the backup is missing or is not version 1. */
  lemma ConvertDumpChecksVersion(dump: Option<PostmanDump>, tape: Tape, timestamp: string, fuel: nat)
    ensures dump.None? ==> ConvertDump(dump, tape, timestamp, fuel) == Err(InvalidJson)
    ensures dump.Some? && dump.value.version != 1 ==> ConvertDump(dump, tape, timestamp, fuel) == Err(VersionNotSupported)
    ensures ConvertDump(dump, tape, timestamp, fuel).Ok? ==> dump.Some? && dump.value.version == 1
  {
  }

  /** A successful conversion is the collections' records followed by the environments'. */
  lemma ConvertDumpParts(dump: Option<PostmanDump>, tape: Tape, timestamp: string, fuel: nat)
    requires ConvertDump(dump, tape, timestamp, fuel).Ok?
    ensures dump.Some?
    ensures CollectionsFrom(dump.value.collections, 0, RootResources(tape, timestamp), RootDraws,
                            WorkspaceId(tape), RequestMapping(tape), fuel).Ok?
    ensures ConvertDump(dump, tape, timestamp, fuel).value.resources ==
      CollectionsFrom(dump.value.collections, 0, RootResources(tape, timestamp), RootDraws,
                      WorkspaceId(tape), RequestMapping(tape), fuel).value +
      EnvironmentRecords(dump.value.environments, EnvBaseId(tape))
  {
  }

  /**
   * The export starts with the three roots; the workspace is its only
   * workspace and the only record without a parent.
   */
  lemma ConvertDumpRoots(dump: Option<PostmanDump>, tape: Tape, timestamp: string, fuel: nat)
    requires ConvertDump(dump, tape, timestamp, fuel).Ok?
    ensures var e := ConvertDump(dump, tape, timestamp, fuel).value;
      e.exportType == "export" && e.exportFormat == 4 &&
      |e.resources| >= 3 && e.resources[..3] == RootResources(tape, timestamp) &&
      (forall k :: 1 <= k < |e.resources| ==> !e.resources[k].Workspace? && e.resources[k].Parent().Some?)
  {
    ConvertDumpParts(dump, tape, timestamp, fuel);
    ConvertDumpLinked(dump, tape, timestamp, fuel);
    var roots := RootResources(tape, timestamp);
    RequestMappingMapsToRequests(tape);
    var cs := dump.value.collections;
    CollectionsFromAppends(cs, 0, roots, RootDraws, WorkspaceId(tape), RequestMapping(tape), fuel);
    var out := CollectionsFrom(cs, 0, roots, RootDraws, WorkspaceId(tape), RequestMapping(tape), fuel).value;
    EnvironmentRecordsLinked(dump.value.environments, EnvBaseId(tape));
    RootsLead(roots, out, EnvironmentRecords(dump.value.environments, EnvBaseId(tape)));
  }

  /**
   * Roots, then tree records, then environments, all linked: only the
   * first record is a workspace and every other one has a parent.
   */
  lemma RootsLead(roots: seq<Resource>, out: seq<Resource>, envRecords: seq<Resource>)
    requires |roots| == 3 && roots[1].ApiSpec? && roots[2].Environment?
    requires roots[1].Parent().Some? && roots[2].Parent().Some?
    requires roots <= out && forall k :: 3 <= k < |out| ==> TreeRecord(out[k])
    requires forall k :: 0 <= k < |envRecords| ==> envRecords[k].Environment? && envRecords[k].Parent().Some?
    requires Linked(out + envRecords, {})
    ensures |out + envRecords| >= 3 && (out + envRecords)[..3] == roots
    ensures forall k :: 1 <= k < |out + envRecords| ==>
      !(out + envRecords)[k].Workspace? && (out + envRecords)[k].Parent().Some?
  {
    var rs := out + envRecords;
    assert rs[..3] == roots by {
      assert out[..3] == roots;
    }
    forall k | 1 <= k < |rs| ensures !rs[k].Workspace? && rs[k].Parent().Some? {
      if k < 3 {
        assert rs[k] == roots[k];
      } else if k < |out| {
        assert rs[k] == out[k] && TreeRecord(out[k]);
        if rs[k].RequestGroup? {
          assert ParentEarlier(rs, k, {});
        }
      } else {
        assert rs[k] == envRecords[k - |out|];
      }
    }
  }

  /**
   * The export ends with the environments' records: one mapped environment
   * per Postman environment, in order, under the base environment.
   */
  lemma ConvertDumpEnvironments(dump: Option<PostmanDump>, tape: Tape, timestamp: string, fuel: nat)
    requires ConvertDump(dump, tape, timestamp, fuel).Ok?
    ensures var rs := ConvertDump(dump, tape, timestamp, fuel).value.resources;
      |rs| >= |dump.value.environments| &&
      rs[|rs| - |dump.value.environments|..] == EnvironmentRecords(dump.value.environments, EnvBaseId(tape))
  {
    ConvertDumpParts(dump, tape, timestamp, fuel);
    var out := CollectionsFrom(dump.value.collections, 0, RootResources(tape, timestamp), RootDraws,
                               WorkspaceId(tape), RequestMapping(tape), fuel).value;
    TailOfAppend(out, EnvironmentRecords(dump.value.environments, EnvBaseId(tape)));
  }

  lemma TailOfAppend(a: seq<Resource>, b: seq<Resource>)
    ensures (a + b)[|a + b| - |b|..] == b
  {
    assert |a + b| - |b| == |a|;
  }

  /**
   * Every record other than a request names as parent a record emitted
   * before it: the export never refers a group, the api spec or an
   * environment to a parent that is missing or comes later.
   */
  lemma ConvertDumpLinked(dump: Option<PostmanDump>, tape: Tape, timestamp: string, fuel: nat)
    requires ConvertDump(dump, tape, timestamp, fuel).Ok?
    ensures Linked(ConvertDump(dump, tape, timestamp, fuel).value.resources, {})
  {
    ConvertDumpParts(dump, tape, timestamp, fuel);
    var roots := RootResources(tape, timestamp);
    RequestMappingMapsToRequests(tape);
    var cs := dump.value.collections;
    assert WorkspaceId(tape) in IdSet(roots) by { assert roots[0].id == WorkspaceId(tape); }
    CollectionsFromLinked(cs, 0, roots, RootDraws, WorkspaceId(tape), RequestMapping(tape), fuel);
    CollectionsFromAppends(cs, 0, roots, RootDraws, WorkspaceId(tape), RequestMapping(tape), fuel);
    var out := CollectionsFrom(cs, 0, roots, RootDraws, WorkspaceId(tape), RequestMapping(tape), fuel).value;
    assert EnvBaseId(tape) in IdSet(out) by {
      assert out[2] == roots[2];
    }
    EnvironmentRecordsLinked(dump.value.environments, EnvBaseId(tape));
    LinkedAppend(out, EnvironmentRecords(dump.value.environments, EnvBaseId(tape)), {}, {EnvBaseId(tape)});
  }

  /**
   * More depth changes nothing once the collections' loop has succeeded.
   */
  lemma {:induction false} CollectionsFromMoreFuel(cs: seq<PostmanCollection>, i: nat, done: seq<Resource>, cursor: nat,
                                                   workspace: string, mapping: RequestMap, fuel: nat, more: nat)
    requires i <= |cs| && fuel <= more
    requires CollectionsFrom(cs, i, done, cursor, workspace, mapping, fuel).Ok?
    ensures CollectionsFrom(cs, i, done, cursor, workspace, mapping, more) ==
            CollectionsFrom(cs, i, done, cursor, workspace, mapping, fuel)
    decreases |cs| - i
  {
    if i < |cs| {
      var c := cs[i];
      EmitFolderMoreFuel(c.node, Some(workspace), c.folders, fuel, more);
      var rs := CollectionRecords(c, workspace, cursor, mapping, fuel).value;
      CollectionsFromMoreFuel(cs, i + 1, done + rs, cursor + RequestsDraws(c.requests), workspace, mapping, fuel, more);
    }
  }

  /** A successful export does not depend on how deep the stack could have gone beyond what it used. */
  lemma ConvertDumpMoreFuel(dump: Option<PostmanDump>, tape: Tape, timestamp: string, fuel: nat, more: nat)
    requires fuel <= more && ConvertDump(dump, tape, timestamp, fuel).Ok?
    ensures ConvertDump(dump, tape, timestamp, more) == ConvertDump(dump, tape, timestamp, fuel)
  {
    CollectionsFromMoreFuel(dump.value.collections, 0, RootResources(tape, timestamp), RootDraws,
                            WorkspaceId(tape), RequestMapping(tape), fuel, more);
  }

  /**
   * Every collection's folder tree, as far as the walk can reach it
   * (`reach(i)` for collection `i`), is ranked below `fuel`.
   */
  ghost predicate CollectionsRanked(cs: seq<PostmanCollection>, rank: Folder -> nat, reach: nat -> set<int>, fuel: nat) {
    forall i :: 0 <= i < |cs| ==> RankedBy(rank, cs[i].node, cs[i].folders, reach(i)) && rank(cs[i].node) < fuel
  }

  lemma {:induction false} CollectionsFromSucceed(cs: seq<PostmanCollection>, i: nat, done: seq<Resource>, cursor: nat,
                                                  workspace: string, mapping: RequestMap, fuel: nat, rank: Folder -> nat,
                                                  reach: nat -> set<int>)
    requires i <= |cs| && CollectionsRanked(cs, rank, reach, fuel)
    ensures CollectionsFrom(cs, i, done, cursor, workspace, mapping, fuel).Ok?
    decreases |cs| - i
  {
    if i < |cs| {
      var c := cs[i];
      EmitFolderSucceeds(c.node, Some(workspace), c.folders, fuel, rank, reach(i));
      var after := done + CollectionRecords(c, workspace, cursor, mapping, fuel).value;
      var next := cursor + RequestsDraws(c.requests);
      CollectionsFromSucceed(cs, i + 1, after, next, workspace, mapping, fuel, rank, reach);
      CollectionsFromStep(cs, i, done, cursor, after, next, workspace, mapping, fuel);
    }
  }

  /**
   * A version 1 backup whose listings reachable from each collection can
   * be ranked, so that they hold no cycle, converts given a stack deeper
   * than every rank; listings the walk never reaches are unconstrained.
   */
  lemma ConvertDumpSucceeds(dump: Option<PostmanDump>, tape: Tape, timestamp: string, fuel: nat, rank: Folder -> nat,
                            reach: nat -> set<int>)
    requires dump.Some? && dump.value.version == 1
    requires CollectionsRanked(dump.value.collections, rank, reach, fuel)
    ensures ConvertDump(dump, tape, timestamp, fuel).Ok?
  {
    CollectionsFromSucceed(dump.value.collections, 0, RootResources(tape, timestamp), RootDraws,
                           WorkspaceId(tape), RequestMapping(tape), fuel, rank, reach);
  }
}
