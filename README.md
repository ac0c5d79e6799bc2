# go-task Taskfile reader, modelled in Dafny

go-task reads a Taskfile together with every Taskfile it includes. It does this with
`taskfile.Reader`, which builds a directed acyclic graph (DAG):

- each vertex is a Taskfile location, holding the parsed Taskfile;
- each edge runs from an including Taskfile to an included one, and carries the
  `Include` entries that produced it, weighted by how many there are.

This project models that reader and proves what it promises:

- **Reading once.** A location already in the graph is not read again (claim-based
  deduplication).
- **Rejected Taskfiles.** A Taskfile without a `version` is rejected.
- **Task locations.** Each task's location is stamped only where it is still empty.
- **Loading remote Taskfiles.** Offline mode, a network timeout and trust on first use
  (checksums, prompts, cache writes) each lead to the outcome the code chooses.
- **Include resolution.** Each include is resolved by templating its `taskfile` and `dir`.
  `optional` forgives only a failure to build the child node.
- **Edges.** Edges are added or extended so that the weight is always the number of
  includes carried, earlier includes are kept in order, and the graph stays acyclic. A
  closing edge is reported as a `TaskfileCycleError`.

Files:

- `wrappers.dfy`: `Option` and `Result`.
- `ast.dfy`: locations, tasks, includes, Taskfiles and nodes.
- `errors.dfy`: the graph library's errors and go-task's Taskfile errors.
- `dag.dfy`: the graph as a class (`ast.TaskfileGraph` over `dominikbraun/graph`), with:
  - reachability;
  - the predecessor walk that decides whether a new edge closes a cycle;
  - the proof that a refused-cycle edge insertion keeps the graph acyclic.
- `world.dfy`: the collaborators whose code is outside this model, and the reader's
  settings. The collaborators are node construction and resolution, the network fetch
  made by `loadNode`, the read made by `readNode`, YAML decoding, templating, the cache,
  checksums and the user's answer to a prompt.
- `trust.dfy`: `Reader.loadNode` as a pure decision function. It returns the node or
  error, whether the remote was fetched, which prompt was shown, and what was written to
  the cache.
- `reader.dfy`: include resolution, decoding and version checking, the task location
  stamping loop, and the `Reader` class (`Read`, `include` and the per-include branch).
  Each `Reader` method is proved equal to a ghost reference function over a snapshot of
  the graph and the cache (`IncludeSpec`, `ReadClaimedSpec`, `EachSpec`, `BranchSpec`,
  `FollowSpec`, `RecordSpec`). So its contract fixes the whole new state and exactly
  which error comes back.
- `scenarios.dfy`: a concrete run on two local Taskfiles that include each other.

The concurrent fan-out over includes (`errgroup`, one goroutine per include) is modelled
as a loop over the includes in order that stops at the first error. The ghost `readLog`
of `Reader` records the locations in the order `readNode` is called on them. Its
invariant is that every location is read at most once, only after it was claimed, and
that every stored Taskfile was read.

## Model

| member | source | states |
|---|---|---|
| Dag.TaskfileGraph.constructor | taskfile/reader.go:51-52 | a new reader starts with an empty, acyclic graph |
| Dag.TaskfileGraph.AddVertex | taskfile/reader.go:74-86 | a new location is claimed as a vertex with no Taskfile yet; an existing one is refused with `ErrVertexAlreadyExists` and nothing changes |
| Dag.CreatesCycle | taskfile/reader.go:151-156 | the library's cycle test for source -> target answers true exactly when target already reaches source (a self-loop counts) |
| Dag.AddEdgeKeepsAcyclic | taskfile/reader.go:29-30 | adding an edge whose destination does not reach its source keeps the graph acyclic |
| Dag.TaskfileGraph.AddEdge | taskfile/reader.go:151-156 | an edge is added only between existing vertices, only when it is new, and only when it does not close a cycle; each refusal names its reason and leaves the edges as they were; the graph stays acyclic |
| Dag.TaskfileGraph.UpdateEdge | taskfile/reader.go:159-165 | an existing edge gets its new properties, a missing one is `ErrEdgeNotFound`; the graph stays acyclic |
| Trust.LoadNode | taskfile/reader.go:227-307 | a local node passes through untouched; only a remote node outside offline mode is fetched; a prompt is only shown after a fetch; the cache is only written after a prompt, and then the written node is returned; a load that fetched succeeds only when the fetched copy's checksum matches the cached one or the user consented |
| Trust.StoreWrite | taskfile/reader.go:299-303 | the cache changes only at the loaded remote's location, and only when the load wrote it |
| Trust.OfflineUsesCacheOnly | taskfile/reader.go:238-249 | offline, a remote node is never fetched, prompted for or written; a miss is `TaskfileCacheNotFoundError` for its location; a hit returns the cached node |
| Trust.TimeoutFallsBackToCache | taskfile/reader.go:251-271 | on a fetch timeout with `download` the error carries the fetch's timeout and does not claim to have checked the cache; without `download` a cache miss is a timeout error with the reader's timeout that did check the cache, and a hit returns the cached node |
| Trust.OtherFetchErrorPropagates | taskfile/reader.go:273-275 | any other fetch error is returned as it is, with no prompt and no write |
| Trust.TrustDecision | taskfile/reader.go:278-306 | no cached checksum asks the "untrusted" prompt, a different one the "changed" prompt; a matching one asks nothing, writes nothing and returns the remote node; declining is `TaskfileNotTrustedError` with no write; accepting writes the cache with the new checksum and returns the written node |
| Trust.AcceptedContentIsTrustedNextTime | taskfile/reader.go:285-303 | after accepted content is cached, fetching the same content again asks nothing and writes nothing |
| Trust.WriteIsPerSource | taskfile/reader.go:299-303 | a cache write for one remote does not change how any other location loads |
| TaskfileReader.Locate | taskfile/reader.go:104-128 | on success only `taskfile` and `dir` differ from the include; `taskfile` is the templated one, the entrypoint is resolved from it, and `dir` is the templated `dir` resolved against the parent; a failure is the error of one of the two templatings or of one of the two resolutions |
| TaskfileReader.LocateIgnoresOptional | taskfile/reader.go:104-128 | templating and resolution give the same entrypoint, fields and errors whatever `optional` is |
| TaskfileReader.ResolveInclude | taskfile/reader.go:104-138 | the resolved include differs from the original only in `taskfile` and `dir`; the child node lies among the locations `NewNode` can build; an include is skipped only when it is optional |
| TaskfileReader.ResolutionOutcomes | taskfile/reader.go:116-138 | a templating or resolution error fails the branch with that error; otherwise a `NewNode` failure skips an optional include and fails any other with `NewNode`'s error; otherwise the child is the node `NewNode` built from the entrypoint and the resolved directory, with the located include |
| TaskfileReader.OptionalOnlyForgivesNewNode | taskfile/reader.go:116-138 | when templating and resolution succeed and `NewNode` fails, the optional include is skipped and the non-optional one fails with `NewNode`'s error; in every other case neither is skipped and a failure is the same error either way; both resolve the same child |
| TaskfileReader.DecodeNode | taskfile/reader.go:188-209 | a read error is returned as it is; a decoded Taskfile is the one the decoder produced, with the node's location set, and it has a version; its directory is the one the source was read from |
| TaskfileReader.MissingVersionIsRejected | taskfile/reader.go:203-206 | a Taskfile without a version is `TaskfileVersionCheckError` for the node's location |
| TaskfileReader.DecodeFailuresAreClassified | taskfile/reader.go:194-201 | a syntax error becomes `TaskfileDecodeError` and any other decode failure `TaskfileInvalidError`, both for the node's location |
| TaskfileReader.StampTaskFirstWriteWins | taskfile/reader.go:215-221 | a task's location file and directory are set only when empty, and a value already set is kept; nothing else about the task changes |
| TaskfileReader.StampAllKeepsEntries | taskfile/reader.go:210-214 | stamping keeps the task list's length and order and its names; a nil entry stays nil |
| TaskfileReader.StampAllIsIdempotent | taskfile/reader.go:208-222 | once non-empty values are stamped, stamping again with any values changes nothing |
| TaskfileReader.StampLocations | taskfile/reader.go:208-222 | the loop over the tasks yields exactly the stamped task list |
| TaskfileReader.MatchedRemoteIsReadAgain | taskfile/reader.go:183-191 | after a fetch whose checksum matches the cached one, the remote node itself is read again; the parsed Taskfile comes from that second read, and its error is returned with no cache fallback |
| TaskfileReader.RecordedStaysRecorded | taskfile/reader.go:157-165 | as edges only grow by appending includes, an include already carried by an edge stays carried |
| TaskfileReader.RecordedExtends | taskfile/reader.go:98-176 | the includes handled so far stay recorded when the next one is recorded |
| TaskfileReader.EdgeRecording | taskfile/reader.go:145-173 | a missing edge is added with `[include]` and weight 1; an existing edge gets the include appended and weight equal to its new length; a new edge between vertices is refused exactly when it would close a cycle, as `TaskfileCycleError{source, destination}`; a missing endpoint is the graph's error; a refusal leaves the edges unchanged |
| TaskfileReader.EachStopsAtFirstError | taskfile/reader.go:95-179 | when a branch fails, the walk's outcome is that branch's state and error and no later include is processed; when it succeeds, the walk goes on from the state it left |
| TaskfileReader.CycleFailsTheBranch | taskfile/reader.go:140-172 | a branch whose child was included without error, but whose edge would close a cycle, fails with `TaskfileCycleError` from the parent to the child and adds no edge |
| TaskfileReader.Reader.constructor | taskfile/reader.go:42-61 | `NewReader` holds the node and settings over a fresh, empty graph |
| TaskfileReader.Reader.Read | taskfile/reader.go:63-70 | the new state and error are exactly those of including the root; the graph is returned exactly when there is no error, and it then holds the root with every Taskfile read; the root's own load or parse error is the error returned |
| TaskfileReader.Reader.Include | taskfile/reader.go:72-93 | the new state and error are exactly `IncludeSpec`'s; a location already claimed returns success and changes nothing; a new location is claimed and read once; a load or parse error is returned and leaves only the claim; on success the vertex holds the read Taskfile with stamped tasks, and every one of its includes is either a skipped optional one or carried by the edge from the loaded node to its child; the graph stays acyclic with weight equal to the number of includes carried, and existing vertices and edge data are kept |
| TaskfileReader.Reader.ReadClaimed | taskfile/reader.go:88-99 | after the claim, the node is read; a failure returns the read error with the graph untouched; on success the vertex holds the populated Taskfile and its includes are all recorded |
| TaskfileReader.Reader.IncludeEach | taskfile/reader.go:95-179 | the new state and error are exactly `EachSpec`'s: the includes in order, over the environment merged with the Taskfile's variables; the first failing branch's error is returned with nothing after it processed; without an error every include is recorded |
| TaskfileReader.Reader.IncludeBranch | taskfile/reader.go:103-174 | the new state and error are exactly `BranchSpec`'s; a resolution error is returned with nothing changed; a skipped optional include changes nothing; otherwise the resolved include is followed |
| TaskfileReader.Reader.Follow | taskfile/reader.go:140-173 | the child is included first and its error returned; otherwise the edge is recorded and its error (a cycle or a missing endpoint) is the branch's; on success the edge from the parent to the child carries the include |
| TaskfileReader.Reader.RecordEdge | taskfile/reader.go:145-173 | the new edges and the error are exactly `RecordSpec`'s (see `EdgeRecording`); the vertices are unchanged and earlier edge data is kept as a prefix |
| TaskfileReader.Reader.ReadNode | taskfile/reader.go:182-225 | the Taskfile is loaded, then the loaded node is read, decoded and version-checked, and its tasks are stamped; the result is the loaded node with that Taskfile or the first error; the cache is changed only by the load's own write; the location is logged as read |
| Scenarios.MutualIncludesAreACycle | taskfile/reader.go:140-172 | when "A" includes "B" and "B" includes "A", including "A" adds B -> A first and then fails with `TaskfileCycleError` from "A" to "B", leaving both vertices and the one edge |
| Scenarios.ReadMutualIncludes | taskfile/reader.go:63-70 | a fresh reader on those two Taskfiles returns no graph and the cycle error from "A" to "B" |

## Left out

- Goroutines, `errgroup` and the graph's `Lock`/`Unlock` are not modelled. Includes are handled in order and the first error ends the loop. In the source, the other branches may still run, and which branch claims a shared location first depends on scheduling.
- YAML decoding is an abstract function. It returns a Taskfile, a syntax error or another error.
- `WithFileInfo` and `TryAbsToRel` only decorate error messages, so they are not modelled. The errors carry the plain location.
- The templater, `compiler.GetEnviron` and `Vars.Merge` are not modelled as code. The merge is map union, with the Taskfile's variables winning. Templating is an uninterpreted function that may fail.
- `NewNode`, `ResolveEntrypoint`, `ResolveDir`, `Node.Read`, `NewCache`, `Cache.read`, `Cache.write` and `checksumSource` are uninterpreted functions. The cache's contents are a map from location to the stored node and checksum. A `Cache.read` failure other than "not found" is a per-location fault.
- The `dominikbraun/graph` store is not modelled beyond its observable behaviour. Its vertex and edge maps are modelled, but not its internals or traversal order.
- Dag.TaskfileGraph.AddVertex: its only error is "vertex already exists", as the in-memory store's is. So `include`'s branch that returns any other `AddVertex` error (reader.go:84-86) has no counterpart.
- Logger output is not modelled.
- The prompt is an oracle on the prompt text. Its I/O and the `%q` escaping of the location are not modelled: the location is quoted without escaping.
- `time.Duration` is a natural number. It is only carried into errors.
- TaskfileReader.Reader.constructor: it also requires that every node `NewNode` can build lies in a fixed finite set of locations (`World.Closed`), which includes the root. The real `NewNode` can build a remote node for any URL, so this requirement excludes exactly the runs in which the source recurses without end, for example an unbounded chain of ever new remote locations. No run that terminates is excluded.
- TaskfileReader.Reader.ReadNode: the load's fetch (`World.fetch`) and `readNode`'s read of the loaded node (`World.read`) are independent collaborators. For a remote node whose checksum matched, that read is a second network fetch, and its bytes are never checksummed. The model exposes this but does not relate the two fetches.
- TaskfileReader.StampLocations: the source writes task locations through pointers into the Taskfile's task map, in place. The model computes the new task list as a value, so sharing of task pointers is not captured.
