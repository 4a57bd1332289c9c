/**
 * The two document shapes: the Postman v1 backup read by the converter and
 * the Insomnia v4 resources it emits.
 */
module Schema {
  import opened Wrappers

  // ---------------------------------------------------------------- Postman

  /** A header, a urlencoded body field, a bearer entry or an environment value. */
  datatype KeyValue = KeyValue(key: string, value: string)

  datatype QueryParam = QueryParam(key: string, value: string, enabled: bool)

  datatype PostmanAuth = PostmanAuth(authType: string, bearer: seq<KeyValue>)

  /**
   * A Postman request. A list the backup leaves out is the empty list; a
   * string the converter falls back from (`description`, `url`, `folder`) or
   * copies even when missing (`rawModeData`) is an Option.
   */
  datatype PostmanRequest = PostmanRequest(
    id: string,
    name: string,
    description: Option<string>,
    url: Option<string>,
    httpMethod: string,
    headerData: seq<KeyValue>,
    queryParams: seq<QueryParam>,
    auth: Option<PostmanAuth>,
    dataMode: Option<string>,
    data: seq<KeyValue>,
    rawModeData: Option<string>,
    folder: Option<string>,
    collectionId: string)

  /**
   * A node of the Postman folder tree: a collection or one of its folders.
   * The converter writes `parentId` while it walks the tree; everything
   * else is read only.
   */
  class Folder {
    const id: string
    const name: string
    const description: Option<string>
    /** The ids of the folders placed directly under this node. */
    const foldersOrder: seq<string>
    var parentId: Option<string>

    constructor (id: string, name: string, description: Option<string>, foldersOrder: seq<string>)
      ensures this.id == id && this.name == name && this.description == description
      ensures this.foldersOrder == foldersOrder && parentId == None
    {
      this.id := id;
      this.name := name;
      this.description := description;
      this.foldersOrder := foldersOrder;
      parentId := None;
    }
  }

  /**
   * A collection: its own node (id, name, description, folders_order,
   * parentId), the flat list of every folder inside it, and its requests.
   */
  datatype PostmanCollection = PostmanCollection(node: Folder, folders: seq<Folder>, requests: seq<PostmanRequest>) {
    /** The objects the converter may write while parsing this collection. */
    function Objects(): set<Folder> {
      {node} + set f | f in folders
    }
  }

  datatype PostmanEnvironment = PostmanEnvironment(id: string, name: string, values: seq<KeyValue>)

  datatype PostmanDump = PostmanDump(version: int, collections: seq<PostmanCollection>, environments: seq<PostmanEnvironment>)

  // --------------------------------------------------------------- Insomnia

  /** A header or a form-body field. */
  datatype Pair = Pair(id: string, name: string, value: string)

  datatype QueryPair = QueryPair(id: string, name: string, value: string, disabled: bool)

  datatype Authentication = Authentication(authType: string, token: Option<string>)

  datatype Body =
    | FormBody(mimeType: string, params: seq<Pair>)
    | TextBody(mimeType: string, text: Option<string>)

  /** One record of the export's `resources` list; the constructor is its `_type`. */
  datatype Resource =
    | Workspace(id: string, name: string)
    | ApiSpec(id: string, parentId: Option<string>, fileName: string, contents: string, contentType: string)
    | Environment(id: string, parentId: Option<string>, name: string, data: map<string, string>)
    | RequestGroup(id: string, parentId: Option<string>, name: string, groupDescription: Option<string>)
    | Request(
        id: string,
        parentId: Option<string>,
        name: string,
        description: string,
        url: string,
        httpMethod: string,
        headers: Option<seq<Pair>>,
        parameters: Option<seq<QueryPair>>,
        authentication: Option<Authentication>,
        body: Option<Body>)
  {
    /** The `_type` tag written to the export. */
    function Type(): string {
      match this
      case Workspace(_, _) => "workspace"
      case ApiSpec(_, _, _, _, _) => "api_spec"
      case Environment(_, _, _, _) => "environment"
      case RequestGroup(_, _, _, _) => "request_group"
      case Request(_, _, _, _, _, _, _, _, _, _) => "request"
    }

    /** The `parentId` written to the export; the workspace's is null. */
    function Parent(): Option<string> {
      if Workspace? then None else parentId
    }
  }

  /** The export envelope written as one JSON document. */
  datatype Export = Export(exportType: string, exportFormat: int, resources: seq<Resource>)

  /** Why a conversion stops without output. */
  datatype ConvertError =
    | InvalidJson            // the backup document is missing
    | VersionNotSupported    // the backup's version is not 1
    | RecursionTooDeep       // folders_order nests deeper than the call stack allows

  // ----------------------------------------------------- parent references

  /**
   * Record `k` names a parent that is one of the `anchors` or the id of an
   * earlier record.
   */
  ghost predicate ParentEarlier(rs: seq<Resource>, k: int, anchors: set<string>)
    requires 0 <= k < |rs|
  {
    rs[k].Parent().Some? &&
    (rs[k].Parent().value in anchors || exists j :: 0 <= j < k && rs[j].id == rs[k].Parent().value)
  }

  /**
   * Every record other than a workspace or a request refers to its parent
   * by an id emitted before it (or to one of the `anchors`, emitted
   * elsewhere).
   */
  ghost predicate Linked(rs: seq<Resource>, anchors: set<string>) {
    forall k :: 0 <= k < |rs| && !rs[k].Workspace? && !rs[k].Request? ==> ParentEarlier(rs, k, anchors)
  }

  function IdSet(rs: seq<Resource>): set<string> {
    set j | 0 <= j < |rs| :: rs[j].id
  }

  lemma IdSetAppend(a: seq<Resource>, b: seq<Resource>)
    ensures IdSet(a + b) == IdSet(a) + IdSet(b)
  {
    var ab := a + b;
    forall x | x in IdSet(ab) ensures x in IdSet(a) + IdSet(b) {
      var j :| 0 <= j < |ab| && ab[j].id == x;
      if j >= |a| {
        assert b[j - |a|].id == x;
      }
    }
    forall x | x in IdSet(a) ensures x in IdSet(ab) {
      var j :| 0 <= j < |a| && a[j].id == x;
      assert ab[j].id == x;
    }
    forall x | x in IdSet(b) ensures x in IdSet(ab) {
      var j :| 0 <= j < |b| && b[j].id == x;
      assert ab[|a| + j].id == x;
    }
  }

  /**
   * Two linked pieces stay linked when put side by side, provided that what
   * the second piece refers to is an anchor of the first or an id it emits.
   */
  lemma LinkedAppend(a: seq<Resource>, b: seq<Resource>, anchorsA: set<string>, anchorsB: set<string>)
    requires Linked(a, anchorsA) && Linked(b, anchorsB)
    requires anchorsB <= anchorsA + IdSet(a)
    ensures Linked(a + b, anchorsA)
  {
    var ab := a + b;
    forall k | 0 <= k < |ab| && !ab[k].Workspace? && !ab[k].Request?
      ensures ParentEarlier(ab, k, anchorsA)
    {
      if k < |a| {
        assert ab[k] == a[k];
        assert ParentEarlier(a, k, anchorsA);
        if ab[k].Parent().value !in anchorsA {
          var j :| 0 <= j < k && a[j].id == a[k].Parent().value;
          assert ab[j] == a[j];
        }
      } else {
        var kb := k - |a|;
        assert ab[k] == b[kb];
        assert ParentEarlier(b, kb, anchorsB);
        var p := b[kb].Parent().value;
        if p in anchorsB {
          if p !in anchorsA {
            assert p in IdSet(a);
            var j :| 0 <= j < |a| && a[j].id == p;
            assert ab[j] == a[j];
          }
        } else {
          var j :| 0 <= j < kb && b[j].id == p;
          assert ab[|a| + j] == b[j];
        }
      }
    }
  }
}
