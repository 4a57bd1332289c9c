# Postman backup to Insomnia export, modelled in Dafny

This project models `convert-postman-to-insomnia.js`. The script reads a Postman
version 1 backup (collections, their folders and requests, and environments) and
produces the resource list of an Insomnia version 4 export.

The model covers the whole conversion:

- **Roots.** The version check and the three root records: the workspace, the
  api spec stub and the base environment.
- **Ids.** `generateId` reads an injected random tape, and `toId` strips hyphens.
- **Requests.** `mapRequest` is a pure function of the request, the tape and the
  draw position its pair ids start at.
- **Folder tree.** `parseFolder` is the pre-order tree builder. It pushes
  `request_group` records and rewrites each visited folder's `parentId`.
- **Collections.** `parseCollection` and the collections' loop.
- **Environments.** The environment loop, whose keys have `-` and `.` replaced
  by `_`.
- **Export.** The export envelope.

Modules, one per file:

- `Wrappers` (`wrappers.dfy`): `Option` and `Result`.
- `Ids` (`ids.dfy`): the alphabet, the random tape, `GenerateId` and `ToId`.
- `Schema` (`schema.dfy`):
  - the Postman input: requests, and `Folder` objects whose `parentId` the
    script overwrites, so `Folder` is a class;
  - the Insomnia output records;
  - `Linked`, the "every parent was emitted earlier" predicate.
- `RequestMapper` (`request_mapper.dfy`): `mapRequest` and the draws it takes.
- `FolderTree` (`folder_tree.dfy`): the records `parseFolder` emits, as values.
- `Environments` (`environments.dfy`): key sanitizing and the data map.
- `Conversion` (`converter.dfy`):
  - the specification of the whole run, `ConvertDump`;
  - the imperative run: class `Converter`, which holds the growing `resources`
    list and the tape cursor, and the method `Convert`;
  - the properties of the output.

Randomness is a `Tape`, a function from positions to draws in `0..61`. Each
draw picks one character of the 62-symbol alphabet. Draws are consumed in the
script's order:

- The three root ids take positions 0 to 59, twenty each. The order is workspace,
  base environment, api spec. The api spec id is drawn last, although its record
  comes second.
- Each request then takes ten draws per pair id, in this order:
  1. its headers;
  2. its query parameters;
  3. its urlencoded body fields.

The date in the workspace name is a string parameter.

`parseFolder` stops only when no cycle of the `folders_order` relation can be
reached from the collection through the folders it visits. A cycle among
folders that are never visited does no harm. The model's recursion therefore
carries `fuel`, the call depth still available. A walk that still has a child to visit when the fuel is used up fails with
`RecursionTooDeep`, which is how the script fails when its stack overflows.
The fuel is tied to the stack in two ways:

- More fuel never changes a result that has already succeeded.
- A tree succeeds once the fuel exceeds the rank of its collection, whenever
  some rank decreases along every listing in a set of folders that holds the
  collection's own listings and is closed under listing. Listings outside
  that set, which the walk never follows, are left free, so a cycle among
  unvisited folders is allowed.

A finite tree with no reachable cycle always has such a rank (each folder's
height), so every property stated about a successful run covers every backup
whose reachable folder tree has no cycle; the model proves the direction from
a rank to success, not the construction of the rank.

In these places the script behaves in ways a reader might not expect, and the
model follows it:

- The bearer token is copied whenever the bearer list is non-empty. The code
  never checks that the auth type is `bearer` (lines 105-107).
- Ids are not guaranteed unique. Random ids are never compared. A folder listed
  in the `folders_order` of two nodes is emitted twice, once under each parent,
  with the same id.
- A request's parent is not guaranteed to exist. A request whose `folder` names
  a folder that is never visited points at a group that is not in the output.
  For this reason `Linked` checks the parents of every record except requests;
  requests are only shown to have some parent.
- Only folders listed in some `folders_order` reachable from the collection are
  emitted. Other folders of the flat list are dropped: every group after the
  collection's own is that of a folder listed by the collection or by a folder
  of the list, and it sits under its lister's group.

## Model

| member | source | states |
|---|---|---|
| Ids.AlphabetSpelling | convert-postman-to-insomnia.js:27-28 | The alphabet has 62 symbols: `A`–`Z`, then `a`–`z`, then `0`–`9`. |
| Ids.AlphabetIsAlphanumeric | convert-postman-to-insomnia.js:27-30 | The alphabet's symbols are exactly the ASCII letters and digits, each once. |
| Ids.IdFromTape | convert-postman-to-insomnia.js:25-33 | The id that `length` draws spell: exactly `length` characters, all letters or digits. |
| Ids.GenerateId | convert-postman-to-insomnia.js:25-33 | The counting loop returns exactly `length` characters, each the alphabet symbol of the next draw, all alphanumeric. |
| Ids.ToId | convert-postman-to-insomnia.js:35-37 | The result contains no `-` and is no longer than the input. |
| Ids.ToIdCounts | convert-postman-to-insomnia.js:35-37 | Every character other than `-` is kept, as often as in the input; every `-` is removed. |
| Ids.ToIdAppend | convert-postman-to-insomnia.js:35-37 | toId of a concatenation is the concatenation of the toIds, so the kept characters stay in their original order. |
| Ids.ToIdFixesHyphenFree | convert-postman-to-insomnia.js:35-37 | A string without `-` is unchanged. |
| Ids.ToIdIdempotent | convert-postman-to-insomnia.js:35-37 | Applying toId twice is the same as applying it once. |
| RequestMapper.PairId | convert-postman-to-insomnia.js:86 | `'pair_' + generateId(10)` is `pair_` followed by ten letters or digits. The same id is used at lines 94 and 114. |
| RequestMapper.OwnerKey | convert-postman-to-insomnia.js:73 | `request.folder \|\| request.collectionId`: the folder when it is present and non-empty, the collection id otherwise. |
| RequestMapper.Pairs | convert-postman-to-insomnia.js:85-89 | One pair per entry, in order, with name = key and value = value; entry `i` has the pair id of the draws at `start + 10*i`. |
| RequestMapper.QueryPairs | convert-postman-to-insomnia.js:93-98 | One pair per query parameter, in order, with name, value, `disabled = !enabled`, and the pair id of its ten draws. |
| RequestMapper.MapHeaders | convert-postman-to-insomnia.js:84-90 | `headers` is present iff the header list is non-empty, and then copies its entries in order. |
| RequestMapper.MapParameters | convert-postman-to-insomnia.js:92-99 | `parameters` is present iff the query list is non-empty, and then has the same length and order, with `disabled = !enabled`. |
| RequestMapper.MapAuthentication | convert-postman-to-insomnia.js:101-108 | `authentication` is present iff `auth` is, with the same type. The token is present iff the bearer list is non-empty, and is then the first bearer value. |
| RequestMapper.MapBody | convert-postman-to-insomnia.js:110-126 | Raw mode gives the JSON text body with the raw data verbatim. Urlencoded mode with non-empty data gives a form body with the same entries. The body is present only in those two cases. |
| RequestMapper.MapRequest | convert-postman-to-insomnia.js:72-129 | Gives a request record with id `req_`+toId(id) and parent `fld_`+toId(folder, or collectionId when folder is absent or empty). Name and method are copied. Description and url default to `""`. Headers, parameters, authentication and body follow the rules above, reading consecutive windows of the tape. |
| RequestMapper.PairIdsFromTape | convert-postman-to-insomnia.js:84-119 | The k-th pair id of a mapped request is `pair_` plus the ten symbols drawn at `start + 10*k`. Together they use exactly the draws the request is charged. |
| FolderTree.FolderId | convert-postman-to-insomnia.js:133 | A group id is `fld_` followed by the node id without hyphens, so it is at most four characters longer than the node id. |
| FolderTree.GroupOf | convert-postman-to-insomnia.js:132-138 | Gives a `request_group` with id `fld_`+toId(node id), the node's name and description, and its parent id. |
| FolderTree.EmitFolder | convert-postman-to-insomnia.js:131-151 | A successful walk starts with the node's own group, and every record it emits is a `request_group`. |
| FolderTree.EmitChildren | convert-postman-to-insomnia.js:141-149 | Walking the listed children emits only `request_group` records. |
| FolderTree.EmitChildrenErrStays | convert-postman-to-insomnia.js:143-149 | Once a child walk has failed, the loop over the remaining folders also fails. |
| FolderTree.EmitFolderFailsOnlyByDepth | convert-postman-to-insomnia.js:131-151 | The only way a walk can fail is by running out of depth. |
| FolderTree.EmitChildrenFailsOnlyByDepth | convert-postman-to-insomnia.js:141-149 | The children's loop fails only with `RecursionTooDeep`. |
| FolderTree.EmitFolderLinked | convert-postman-to-insomnia.js:132-147 | Pre-order: every group names as parent either the id the walk was entered with or a group emitted before it. |
| FolderTree.EmitChildrenLinked | convert-postman-to-insomnia.js:143-148 | Every group of the children's subtrees names the node's group or an earlier group. |
| FolderTree.ListedChildrenEmitted | convert-postman-to-insomnia.js:143-147 | Every folder the node lists gets a group whose parent is the node's group. |
| FolderTree.ChildrenKeep | convert-postman-to-insomnia.js:143-149 | The records emitted for a prefix of the folder list stay a prefix of those for a longer one. |
| FolderTree.EmitFolderIds | convert-postman-to-insomnia.js:131-151 | A walk invents no groups: each id it emits is the node's or that of a folder in the list. |
| FolderTree.EmitChildrenIds | convert-postman-to-insomnia.js:141-149 | Each group id in the children's subtrees is that of a folder in the list. |
| FolderTree.EmitFolderParents | convert-postman-to-insomnia.js:131-151 | Every group after the node's own is the group of a folder of the flat list that the node or some folder of the list names in its `folders_order`, with `fld_` plus that lister's hyphen-free id as parent; no other folder is attached and no subtree is attached elsewhere. |
| FolderTree.EmitChildrenParents | convert-postman-to-insomnia.js:141-149 | Every group the children's loop emits is a listed folder's group under the group of the node or folder that lists it. |
| FolderTree.SelfListedFolderFails | convert-postman-to-insomnia.js:143-147 | A folder whose `folders_order` lists itself makes the walk fail however much depth is available. |
| FolderTree.EmitFolderMoreFuel | convert-postman-to-insomnia.js:131-151 | A walk that succeeds gives the same records with any larger depth. |
| FolderTree.EmitChildrenMoreFuel | convert-postman-to-insomnia.js:141-149 | The children's loop, once successful, gives the same records with any larger depth. |
| FolderTree.EmitFolderSucceeds | convert-postman-to-insomnia.js:131-151 | If a rank decreases along every listing inside a set of folders that holds the node's listings and is closed under listing, a depth above the node's rank makes the walk succeed; listings outside the set are unconstrained. |
| FolderTree.EmitChildrenSucceed | convert-postman-to-insomnia.js:141-149 | Under the same rank and closed-set condition, the children's loop succeeds. |
| FolderTree.OneListedFolder | convert-postman-to-insomnia.js:131-151 | A node listing one folder `f1`, which lists nothing, gives exactly the node's group followed by `f1`'s group under it. |
| FolderTree.UnreachedCycleIsHarmless | convert-postman-to-insomnia.js:141-149 | When the collection lists only a folder that lists nothing, two other folders listing each other in a cycle do not stop the walk: it succeeds with two levels of depth. |
| Environments.SanitizeKey | convert-postman-to-insomnia.js:189 | The sanitized key has the same length. Each `-` and `.` becomes `_` and every other character is kept, so none of `-` or `.` remains. |
| Environments.SanitizeKeyIdempotent | convert-postman-to-insomnia.js:189 | Sanitizing a sanitized key changes nothing. |
| Environments.SanitizeKeyKeepsClean | convert-postman-to-insomnia.js:189 | A key without `-` and `.` is kept unchanged. |
| Environments.SanitizeKeyExample | convert-postman-to-insomnia.js:189 | The key `my-var.name` becomes `my_var_name`. |
| Environments.EnvData | convert-postman-to-insomnia.js:187-192 | Every entry of the data map holds the value of some item whose key sanitizes to the entry's key. |
| Environments.EnvDataKeys | convert-postman-to-insomnia.js:187-192 | The data map's keys are exactly the sanitized keys of the values. |
| Environments.EnvDataLastWriteWins | convert-postman-to-insomnia.js:188-191 | Each key holds the value of the last item whose key sanitizes to it. |
| Environments.BuildEnvData | convert-postman-to-insomnia.js:187-192 | The loop filling `mapped.data` builds the map `EnvData` specifies. |
| Environments.MapEnvironment | convert-postman-to-insomnia.js:179-192 | Gives an `environment` with id `env_`+toId(env id), parent the base environment and the same name. Its data is the map `EnvData` builds, keyed by the sanitized keys. |
| Conversion.WorkspaceId | convert-postman-to-insomnia.js:40 | WORKDIR is `wrk_` followed by twenty letters or digits. |
| Conversion.EnvBaseId | convert-postman-to-insomnia.js:41 | ENVBASE is `env_` followed by twenty letters or digits. |
| Conversion.ApiSpecId | convert-postman-to-insomnia.js:52 | The api spec id is `spc_` followed by twenty letters or digits. |
| Conversion.RootIdsDistinct | convert-postman-to-insomnia.js:40-52 | The three root ids differ for every tape. |
| Conversion.RootResources | convert-postman-to-insomnia.js:40-70 | Gives three records: a workspace with no parent, then the api spec and the base environment, both with the workspace as parent. |
| Conversion.RequestRecords | convert-postman-to-insomnia.js:159-163 | One record per request. |
| Conversion.RequestRecordsAt | convert-postman-to-insomnia.js:159-163 | Request `i` is mapped with the draws right after those of the requests before it. |
| Conversion.RequestRecordsSnoc | convert-postman-to-insomnia.js:160-162 | One more request appends exactly its record and advances the draws by its own count. |
| Conversion.CollectionRecords | convert-postman-to-insomnia.js:153-164 | A successful collection gives its own group under the workspace first and ends with exactly the request records of its requests, in order, read from the tape at the cursor. It can fail only with `RecursionTooDeep`. |
| Conversion.CollectionsFrom | convert-postman-to-insomnia.js:168-171 | The collections' loop keeps the records pushed before it as a prefix. It can fail only with `RecursionTooDeep`. |
| Conversion.EnvironmentRecords | convert-postman-to-insomnia.js:177-195 | One record per environment, in order, each the mapped environment. |
| Conversion.Converter.constructor | convert-postman-to-insomnia.js:40-70 | Starts with the three root records, their ids drawn in the script's order, and the cursor after the 60 root draws. |
| Conversion.Converter.ParseFolder | convert-postman-to-insomnia.js:131-151 | Succeeds exactly when the walk specification does, and then appends exactly its records, leaving earlier entries unchanged. Every folder whose `parentId` it rewrote has the group with that parent in `resources`. |
| Conversion.Converter.ParseCollection | convert-postman-to-insomnia.js:153-164 | Sets the collection's parent to the workspace. Appends its group tree, then one mapped request per request. Advances the cursor by the requests' draws. |
| Conversion.Converter.PushRequests | convert-postman-to-insomnia.js:159-163 | Appends the requests' records in order and advances the cursor by their draws. |
| Conversion.Converter.ParseCollections | convert-postman-to-insomnia.js:168-171 | Processes the collections in order. Succeeds exactly when the specification does, and then leaves its records. A failure can only be `RecursionTooDeep`. |
| Conversion.Converter.AddEnvironments | convert-postman-to-insomnia.js:174-196 | Appends one mapped environment per environment under the base environment, building each data map with the loop. |
| Conversion.CollectionsFromStep | convert-postman-to-insomnia.js:170 | A collection that succeeds hands its records and the advanced cursor on to the rest of the loop. |
| Conversion.ConvertDump | convert-postman-to-insomnia.js:17-204 | The whole run. A success implies version 1, has type `export` and format 4, and starts with the three roots. A depth failure happens only after the version check. |
| Conversion.CollectionsFromMoreFuel | convert-postman-to-insomnia.js:168-171 | The collections' loop, once successful, gives the same records with any larger depth. |
| Conversion.ConvertDumpMoreFuel | convert-postman-to-insomnia.js:17-204 | A successful export is the same with any larger depth. |
| Conversion.CollectionsFromSucceed | convert-postman-to-insomnia.js:168-171 | If every collection's reachable listings are ranked below the depth, the collections' loop succeeds. |
| Conversion.ConvertDumpSucceeds | convert-postman-to-insomnia.js:17-204 | A version 1 backup whose collections' reachable listings are ranked below the depth converts successfully, whatever cycles the unvisited folders hold. |
| Conversion.Convert | convert-postman-to-insomnia.js:17-204 | The imperative run returns exactly `ConvertDump`: both error cases, and otherwise the export with the accumulated resources. |
| Conversion.NoListedChildren | convert-postman-to-insomnia.js:141 | A node with an empty `folders_order` emits no children. |
| Conversion.RequestMappingMapsToRequests | convert-postman-to-insomnia.js:72-82 | mapRequest always yields a `request` with a parent id. |
| Conversion.RequestRecordsAreRequests | convert-postman-to-insomnia.js:159-163 | Every record the requests' loop pushes is a request with a parent. |
| Conversion.CollectionsFromAppends | convert-postman-to-insomnia.js:153-171 | The collections' loop only appends: earlier records are kept, and every new record is a group or a parented request. |
| Conversion.CollectionsFromLinked | convert-postman-to-insomnia.js:131-171 | The collections' loop keeps parents linked: every group names the workspace or an earlier group. |
| Conversion.EnvironmentRecordsLinked | convert-postman-to-insomnia.js:177-195 | Every environment record names the base environment as parent. |
| Conversion.ConvertDumpChecksVersion | convert-postman-to-insomnia.js:17-23 | A missing backup gives `InvalidJson` and a version other than 1 gives `VersionNotSupported`. A success implies version 1. |
| Conversion.ConvertDumpParts | convert-postman-to-insomnia.js:168-204 | A successful export is the collections' records followed by the environments' records. |
| Conversion.ConvertDumpRoots | convert-postman-to-insomnia.js:43-70 | The export has type `export` and format 4, and starts with the three roots. The first record is the only workspace; every other record has a parent. |
| Conversion.ConvertDumpEnvironments | convert-postman-to-insomnia.js:174-196 | The export ends with the environments' records, which are one mapped environment per Postman environment, in order. |
| Conversion.ConvertDumpLinked | convert-postman-to-insomnia.js:43-196 | Every record other than a request names as parent a record emitted before it. |

## Left out

- Reading the backup file and writing the export (lines 15, 206) are not modelled. The model takes a parsed backup, or `None` for an unusable document, and returns the export record.
- `JSON.stringify` of the envelope (lines 200-204) is not modelled. The envelope is a record with its two fixed fields and the resource list.
- The `console.log` calls (lines 142, 145, 156 and others) are not modelled; they only print.
- `new Date().toISOString()` (line 47) is a string parameter.
- `Math.random` (line 30) is the injected tape. Neither the uniformity of the draws nor the uniqueness of the ids is modelled.
- Cosmetic constant fields are not modelled:
  - `scope` on the workspace;
  - `dataPropertyOrder`, `color`, `isPrivate` and `metaSortKey` on the base environment.
  The api spec keeps its `fileName`, `contents` and `contentType`.
- Absent lists in the backup (`collections`, `environments`, `folders`, `requests`, `headerData`, `queryParams`, `data`, `values`, `bearer`) are modelled as empty sequences. Line 156 reads `collection.folders.length` and `collection.requests.length` unguarded, so the script crashes on a collection missing either list; the model does not reproduce that crash.
- Missing ids and keys are not modelled. The script crashes on them, and the model takes these fields as always-present strings:
  - a request with neither `folder` nor `collectionId`, or without `id`, fails on `.toId()` of undefined (lines 75, 77);
  - a collection or folder without `id` fails at line 133;
  - an environment without `id` fails at line 180;
  - an environment value without `key` fails on `item.key.replace` at line 189.
- `postmanDump.version != 1` is loose equality in the script, so the string `"1"` also passes. The model compares an integer version.
- JavaScript object-key oddities in the data map (keys such as `__proto__`) are not modelled. The map is a plain Dafny `map`.
- The insertion order of the data map's keys is not modelled. `JSON.stringify` writes keys in insertion order, and a Dafny `map` has no order.
- A stack overflow is modelled by the `fuel` bound. The model does not know the actual stack depth at which the script fails.
- Conversion.ConvertDumpLinked: does not state that a request's parent is in the output, because the script does not ensure it (see above).
- Conversion.Converter.ParseFolder: states only that a rewritten `parentId` matches some emitted group. A folder listed by two nodes is rewritten twice, so its final parent need not be the group that was visited first.
