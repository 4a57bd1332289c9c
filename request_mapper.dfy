/**
 * mapRequest: one Postman request becomes one Insomnia `request` resource.
 * Its only impurity in the script, generateId(10) per key/value pair, reads
 * the injected tape: pair ids for headers come first, then query
 * parameters, then urlencoded body fields, ten draws each.
 */
module RequestMapper {
  import opened Wrappers
  import opened Ids
  import opened Schema

  const FormMimeType: string := "application/x-www-form-urlencoded"
  const JsonMimeType: string := "application/json"

  /** `'pair_' + generateId(10)`, reading the tape from `pos`. */
  function PairId(tape: Tape, pos: nat): (id: string)
    ensures IsPairId(id)
  {
    "pair_" + IdFromTape(tape, pos, 10)
  }

  /** Pairs with names and values taken, in order, from the keys and values of `kvs`. */
  predicate CopiesEntries(ps: seq<Pair>, kvs: seq<KeyValue>) {
    |ps| == |kvs| && forall i :: 0 <= i < |ps| ==> ps[i].name == kvs[i].key && ps[i].value == kvs[i].value
  }

  /** The key/value list as pairs; entry `i` takes its id from the draws at `start + 10 * i` on. */
  function Pairs(kvs: seq<KeyValue>, tape: Tape, start: nat): (ps: seq<Pair>)
    ensures CopiesEntries(ps, kvs)
    ensures forall i :: 0 <= i < |ps| ==> ps[i].id == PairId(tape, start + 10 * i)
  {
    seq(|kvs|, i requires 0 <= i < |kvs| => Pair(PairId(tape, start + 10 * i), kvs[i].key, kvs[i].value))
  }

  /** Query parameters as pairs, each `disabled` exactly when the source entry is not enabled. */
  function QueryPairs(qs: seq<QueryParam>, tape: Tape, start: nat): (ps: seq<QueryPair>)
    ensures |ps| == |qs|
    ensures forall i :: 0 <= i < |ps| ==>
      ps[i].name == qs[i].key && ps[i].value == qs[i].value && ps[i].disabled == !qs[i].enabled
    ensures forall i :: 0 <= i < |ps| ==> ps[i].id == PairId(tape, start + 10 * i)
  {
    seq(|qs|, i requires 0 <= i < |qs| =>
      QueryPair(PairId(tape, start + 10 * i), qs[i].key, qs[i].value, !qs[i].enabled))
  }

  /** `request.folder || request.collectionId`: an empty folder id falls back too. */
  function OwnerKey(req: PostmanRequest): (key: string)
    ensures req.folder.Some? && req.folder.value != "" ==> key == req.folder.value
    ensures req.folder.None? || req.folder.value == "" ==> key == req.collectionId
  {
    if req.folder.Some? && req.folder.value != "" then req.folder.value else req.collectionId
  }

  predicate HasFormBody(req: PostmanRequest) {
    req.dataMode == Some("urlencoded") && |req.data| > 0
  }

  /** How many pair ids mapRequest generates. */
  function PairCount(req: PostmanRequest): nat {
    |req.headerData| + |req.queryParams| + FormCount(req)
  }

  /** How many pair ids the urlencoded body generates. */
  function FormCount(req: PostmanRequest): nat {
    if HasFormBody(req) then |req.data| else 0
  }

  /** How many draws mapRequest takes from the tape: ten per generated pair id. */
  function RequestDraws(req: PostmanRequest): nat {
    10 * PairCount(req)
  }

  /** `headers`: present iff the source list is non-empty, with the same entries in the same order. */
  function MapHeaders(headerData: seq<KeyValue>, tape: Tape, start: nat): (hs: Option<seq<Pair>>)
    ensures hs.Some? <==> |headerData| > 0
    ensures hs.Some? ==> CopiesEntries(hs.value, headerData)
  {
    if |headerData| > 0 then Some(Pairs(headerData, tape, start)) else None
  }

  /** `parameters`: the same rule, and each parameter is disabled iff it was not enabled. */
  function MapParameters(queryParams: seq<QueryParam>, tape: Tape, start: nat): (ps: Option<seq<QueryPair>>)
    ensures ps.Some? <==> |queryParams| > 0
    ensures ps.Some? ==> |ps.value| == |queryParams|
    ensures ps.Some? ==> forall i :: 0 <= i < |queryParams| ==>
      ps.value[i].name == queryParams[i].key && ps.value[i].value == queryParams[i].value &&
      ps.value[i].disabled == !queryParams[i].enabled
  {
    if |queryParams| > 0 then Some(QueryPairs(queryParams, tape, start)) else None
  }

  /**
   * `authentication`: present iff the request has auth; it keeps the type and,
   * when the bearer list is non-empty, the first bearer value as the token.
   */
  function MapAuthentication(auth: Option<PostmanAuth>): (a: Option<Authentication>)
    ensures a.Some? <==> auth.Some?
    ensures auth.Some? ==> a.value.authType == auth.value.authType
    ensures auth.Some? ==> (a.value.token.Some? <==> |auth.value.bearer| > 0)
    ensures auth.Some? && |auth.value.bearer| > 0 ==> a.value.token.value == auth.value.bearer[0].value
  {
    match auth
    case None => None
    case Some(src) => Some(Authentication(src.authType, if |src.bearer| > 0 then Some(src.bearer[0].value) else None))
  }

  /**
   * `body`: a raw body becomes JSON text, copied verbatim; a non-empty
   * urlencoded list becomes a form with the same entries; any other mode
   * gives no body.
   */
  function MapBody(req: PostmanRequest, tape: Tape, start: nat): (b: Option<Body>)
    ensures b.Some? <==> req.dataMode == Some("raw") || (req.dataMode == Some("urlencoded") && |req.data| > 0)
    ensures req.dataMode == Some("raw") ==> b == Some(TextBody("application/json", req.rawModeData))
    ensures req.dataMode == Some("urlencoded") && |req.data| > 0 ==>
      b.value.FormBody? && b.value.mimeType == "application/x-www-form-urlencoded" &&
      CopiesEntries(b.value.params, req.data)
  {
    if HasFormBody(req) then Some(FormBody(FormMimeType, Pairs(req.data, tape, start)))
    else if req.dataMode == Some("raw") then Some(TextBody(JsonMimeType, req.rawModeData))
    else None
  }

  /**
   * mapRequest. Header pair ids are read from `start`, parameter ids right
   * after them, body field ids after those.
   */
  function MapRequest(req: PostmanRequest, tape: Tape, start: nat): (r: Resource)
    ensures r.Request?
    ensures r.id == "req_" + ToId(req.id)
    ensures req.folder.Some? && req.folder.value != "" ==> r.parentId == Some("fld_" + ToId(req.folder.value))
    ensures req.folder.None? || req.folder.value == "" ==> r.parentId == Some("fld_" + ToId(req.collectionId))
    ensures r.name == req.name && r.httpMethod == req.httpMethod
    ensures r.description == (if req.description.Some? then req.description.value else "")
    ensures r.url == (if req.url.Some? then req.url.value else "")
    ensures r.headers == MapHeaders(req.headerData, tape, start)
    ensures r.parameters == MapParameters(req.queryParams, tape, start + 10 * |req.headerData|)
    ensures r.authentication == MapAuthentication(req.auth)
    ensures r.body == MapBody(req, tape, start + 10 * (|req.headerData| + |req.queryParams|))
  {
    Request(
      "req_" + ToId(req.id),
      Some("fld_" + ToId(OwnerKey(req))),
      req.name,
      req.description.GetOr(""),
      req.url.GetOr(""),
      req.httpMethod,
      MapHeaders(req.headerData, tape, start),
      MapParameters(req.queryParams, tape, start + 10 * |req.headerData|),
      MapAuthentication(req.auth),
      MapBody(req, tape, start + 10 * (|req.headerData| + |req.queryParams|)))
  }

  /** `'pair_'` followed by ten alphabet symbols. */
  predicate IsPairId(s: string) {
    PrefixedId(s, "pair_", 10)
  }

  /** The ids of a list of pairs, read with `id`, in order. */
  function IdsOf<T>(ps: seq<T>, id: T -> string): (ids: seq<string>)
    ensures |ids| == |ps| && forall i :: 0 <= i < |ps| ==> ids[i] == id(ps[i])
  {
    if ps == [] then [] else [id(ps[0])] + IdsOf(ps[1..], id)
  }

  function PairIdOf(p: Pair): string {
    p.id
  }

  function QueryPairIdOf(p: QueryPair): string {
    p.id
  }

  /** The pair ids a mapped request carries, in the order they were generated. */
  function PairIds(r: Resource): seq<string>
    requires r.Request?
  {
    HeaderIds(r) + ParameterIds(r) + BodyIds(r)
  }

  function HeaderIds(r: Resource): seq<string>
    requires r.Request?
  {
    if r.headers.Some? then IdsOf(r.headers.value, PairIdOf) else []
  }

  function ParameterIds(r: Resource): seq<string>
    requires r.Request?
  {
    if r.parameters.Some? then IdsOf(r.parameters.value, QueryPairIdOf) else []
  }

  function BodyIds(r: Resource): seq<string>
    requires r.Request?
  {
    if r.body.Some? && r.body.value.FormBody? then IdsOf(r.body.value.params, PairIdOf) else []
  }

  /** `n` pair ids read from consecutive ten-draw windows, the first at `start`. */
  function PairIdRun(tape: Tape, start: nat, n: nat): (ids: seq<string>)
    ensures |ids| == n
    decreases n
  {
    if n == 0 then [] else [PairId(tape, start)] + PairIdRun(tape, start + 10, n - 1)
  }

  lemma {:induction false} PairIdRunAt(tape: Tape, start: nat, n: nat, i: nat)
    requires i < n
    ensures PairIdRun(tape, start, n)[i] == PairId(tape, start + 10 * i)
    decreases i
  {
    if i > 0 {
      PairIdRunAt(tape, start + 10, n - 1, i - 1);
    }
  }

  lemma {:induction false} PairIdRunAppend(tape: Tape, start: nat, m: nat, n: nat)
    ensures PairIdRun(tape, start, m) + PairIdRun(tape, start + 10 * m, n) == PairIdRun(tape, start, m + n)
    decreases m
  {
    if m > 0 {
      PairIdRunAppend(tape, start + 10, m - 1, n);
      assert start + 10 + 10 * (m - 1) == start + 10 * m;
    }
  }

  lemma PairsRun(kvs: seq<KeyValue>, tape: Tape, start: nat)
    ensures IdsOf(Pairs(kvs, tape, start), PairIdOf) == PairIdRun(tape, start, |kvs|)
  {
    var ids := IdsOf(Pairs(kvs, tape, start), PairIdOf);
    forall i | 0 <= i < |kvs| ensures ids[i] == PairIdRun(tape, start, |kvs|)[i] {
      PairIdRunAt(tape, start, |kvs|, i);
    }
  }

  lemma QueryPairsRun(qs: seq<QueryParam>, tape: Tape, start: nat)
    ensures IdsOf(QueryPairs(qs, tape, start), QueryPairIdOf) == PairIdRun(tape, start, |qs|)
  {
    var ids := IdsOf(QueryPairs(qs, tape, start), QueryPairIdOf);
    forall i | 0 <= i < |qs| ensures ids[i] == PairIdRun(tape, start, |qs|)[i] {
      PairIdRunAt(tape, start, |qs|, i);
    }
  }

  /** The pair lists of `r` are those mapRequest builds for `req` from `start`. */
  ghost predicate PairListsOf(r: Resource, req: PostmanRequest, tape: Tape, start: nat) {
    r.Request? &&
    r.headers == MapHeaders(req.headerData, tape, start) &&
    r.parameters == MapParameters(req.queryParams, tape, start + 10 * |req.headerData|) &&
    r.body == MapBody(req, tape, start + 10 * (|req.headerData| + |req.queryParams|))
  }

  lemma HeaderIdsRun(r: Resource, req: PostmanRequest, tape: Tape, start: nat)
    requires PairListsOf(r, req, tape, start)
    ensures HeaderIds(r) == PairIdRun(tape, start, |req.headerData|)
  {
    assert HeaderIds(r) == IdsOf(Pairs(req.headerData, tape, start), PairIdOf);
    PairsRun(req.headerData, tape, start);
  }

  lemma ParameterIdsRun(r: Resource, req: PostmanRequest, tape: Tape, start: nat, from: nat)
    requires PairListsOf(r, req, tape, start) && from == start + 10 * |req.headerData|
    ensures ParameterIds(r) == PairIdRun(tape, from, |req.queryParams|)
  {
    assert ParameterIds(r) == IdsOf(QueryPairs(req.queryParams, tape, from), QueryPairIdOf);
    QueryPairsRun(req.queryParams, tape, from);
  }

  lemma BodyIdsRun(r: Resource, req: PostmanRequest, tape: Tape, start: nat, from: nat)
    requires PairListsOf(r, req, tape, start) && from == start + 10 * (|req.headerData| + |req.queryParams|)
    ensures BodyIds(r) == PairIdRun(tape, from, FormCount(req))
  {
    if HasFormBody(req) {
      var ps := Pairs(req.data, tape, from);
      assert r.body == Some(FormBody(FormMimeType, ps));
      assert BodyIds(r) == IdsOf(ps, PairIdOf);
      PairsRun(req.data, tape, from);
    } else {
      assert r.body == MapBody(req, tape, from);
      assert BodyIds(r) == [];
    }
  }

  lemma JoinRuns(tape: Tape, start: nat, h: nat, q: nat, b: nat)
    ensures PairIdRun(tape, start, h) + PairIdRun(tape, start + 10 * h, q)
      + PairIdRun(tape, start + 10 * (h + q), b) == PairIdRun(tape, start, h + q + b)
  {
    PairIdRunAppend(tape, start, h, q);
    PairIdRunAppend(tape, start, h + q, b);
  }

  lemma PairListsRun(r: Resource, req: PostmanRequest, tape: Tape, start: nat)
    requires PairListsOf(r, req, tape, start)
    ensures PairIds(r) == PairIdRun(tape, start, PairCount(req))
  {
    var h, q := |req.headerData|, |req.queryParams|;
    HeaderIdsRun(r, req, tape, start);
    ParameterIdsRun(r, req, tape, start, start + 10 * h);
    BodyIdsRun(r, req, tape, start, start + 10 * (h + q));
    JoinSegments(r, tape, start, h, q, FormCount(req), PairCount(req));
  }

  lemma JoinSegments(r: Resource, tape: Tape, start: nat, h: nat, q: nat, b: nat, n: nat)
    requires r.Request? && n == h + q + b
    requires HeaderIds(r) == PairIdRun(tape, start, h)
    requires ParameterIds(r) == PairIdRun(tape, start + 10 * h, q)
    requires BodyIds(r) == PairIdRun(tape, start + 10 * (h + q), b)
    ensures PairIds(r) == PairIdRun(tape, start, n)
  {
    JoinRuns(tape, start, h, q, b);
  }

  /**
   * The ids of a mapped request are pair ids read from consecutive ten-draw
   * windows of the tape: the k-th one generated reads from `start + 10 * k`,
   * and together they use exactly RequestDraws(req) draws.
   */
  lemma PairIdsFromTape(req: PostmanRequest, tape: Tape, start: nat)
    ensures var ids := PairIds(MapRequest(req, tape, start));
      10 * |ids| == RequestDraws(req) &&
      forall k :: 0 <= k < |ids| ==> ids[k] == PairId(tape, start + 10 * k) && IsPairId(ids[k])
  {
    PairListsRun(MapRequest(req, tape, start), req, tape, start);
    var ids := PairIds(MapRequest(req, tape, start));
    forall k | 0 <= k < |ids| ensures ids[k] == PairId(tape, start + 10 * k) && IsPairId(ids[k]) {
      PairIdRunAt(tape, start, PairCount(req), k);
    }
  }
}
