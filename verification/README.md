# Verified models of the MCP file mount and of pg_mcp

This project models two clients of an MCP (Model Context Protocol) server and
proves what they promise.

The **file mount** (`fuse/`, Go) shows a versioned remote file system as a local
drive. It keeps an attribute, listing and content cache, queues writes on Unix
file handles and replays them on flush, commits each call on Windows, and speaks
a request/response protocol over one connection that it redials. The server is
modelled by its history: a sequence of snapshots in which remote writers may add
anything between two steps of the client, and may answer, refuse or lose a reply.

The **PostgreSQL extension** (`pg/pg_mcp/`, Rust) shows an MCP server as foreign
tables and generated functions. It derives SQL identifiers for published names,
plans tables and functions for each tool, takes WHERE clauses apart in the
planner hook, turns equalities into tool arguments, filters rows itself where
PostgreSQL will not check again, keeps sessions over HTTP, reads event streams,
follows paginated lists and caches catalogs.

Operations that change state step by step are methods of classes, or methods
with loops over arrays and sequences, each proved equal to a specification
function; the theorems are lemmas about those functions over all inputs, all
runs and all behaviours of the other side. Where a promise does not hold of the
code, there is a lemma with an input that breaks it and a lemma that says
exactly when it holds.

| file | models |
|---|---|
| `FileOps.dfy` | operation logs and their replay |
| `Vfs.dfy`, `VfsCache.dfy`, `CachedIo.dfy`, `Interleaving.dfy` | the server's history, the cache, reading and writing through it, alone and interleaved |
| `UnixHandle.dfy`, `WinFs.dfy`, `MountEquivalence.dfy` | the two mounts, and when they do the same |
| `VfsClient.dfy` | the mount's connection |
| `Ident.dfy`, `Collisions.dfy`, `Upstreams.dfy`, `ToolPlan.dfy` | identifiers, collisions, upstream slices, the planner |
| `PgValues.dfy`, `Clauses.dfy`, `CatalogScan.dfy` | values and equalities, clause extraction, catalog scans |
| `PerTool.dfy`, `PerToolScan.dfy`, `GeneratedFunctions.dfy` | per-tool tables and generated functions |
| `Sse.dfy`, `McpSession.dfy`, `ListAll.dfy`, `CatalogCache.dfy` | event streams, sessions, pagination, the catalog cache |

The promises about served versions hold for calls made one at a time, as the
Windows adapter's `ioMu` makes them; `InterleavedReadersGoBack` shows what two
interleaved readers of one path can do, which Unix handles are free to be.
That the cache agrees with the server's history does not need it
(`InterleavedRunsStayCoherent`).

Where the code and its own comments or tests disagree, the model follows the code:

- `derive` is taken to be idempotent over its own output; `DeriveTwiceIff` names the
  exception.
- A comparison with an array parameter is described as staying local; `= ALL` with
  one is pushed, and then not applied.
- The per-tool row filter is described as leaving stale columns for PostgreSQL to
  re-check; a pushed clause is not among the clauses PostgreSQL checks.
- An INSERT without a required value is described as failing before any I/O; the
  tool list may be fetched first, only the `tools/call` is never sent.
- A message saying that the session expired leads to a new handshake; on an event
  stream such a message is an ordinary error.
- The cached tools are described as dropped as soon as a change is observed; a
  per-tool table serves them once more before it drops them, and a lost session
  loses the observation.

## Model

| member | source | states |
|---|---|---|
| `FileOps.ApplySucceedsIff` | fuse/handle.go:93-146 | replaying a log succeeds exactly when its base may enter and every entry fits; the result then has the length the log dictates and never exceeds the limit |
| `FileOps.ApplyPointwise` | fuse/handle.go:93-137 | each result byte is from the last write covering it after the last truncate at or below it, else the surviving base byte, else zero |
| `FileOps.ApplyComposesIff` | fuse/handle.go:93-137 | replaying a log in two parts equals replaying it whole, except exactly for an oversized base before an empty first part |
| `FileOps.ResizeContent` | fuse/handle.go:139-146 | resizing an array keeps the common prefix, fills with zeros, and refuses past the limit |
| `FileOps.WriteInto` | fuse/handle.go:125-131 | growing and overwriting in place splices the data in |
| `FileOps.ApplyFileOps` | fuse/handle.go:93-137 | the array replay computes the meaning of the log and leaves the shared base untouched |
| `Vfs.VersionsOrderHistory` | README.md:371-376 | along every history the version of a path never goes back and determines the file |
| `VfsCache.ParentOfChildIff` | fuse/cache.go:105-123 | dropping a child's parent listing hits the directory's own listing exactly for the root and for paths longer than one character |
| `VfsCache.FindParentDir` | fuse/cache.go:113-123 | the backwards search computes the parent path, with the root for what has none |
| `VfsCache.Cache.constructor` | fuse/cache.go:37-45 | a new cache is empty and has the given lifetimes |
| `VfsCache.Cache.GetAttr` | fuse/cache.go:47-58 | live attributes are returned, expired ones are removed |
| `VfsCache.Cache.PutAttr` | fuse/cache.go:60-66 | attributes are stored with their expiry, everything else is kept |
| `VfsCache.Cache.GetContent` | fuse/cache.go:68-76 | content is returned only for the asked version |
| `VfsCache.Cache.PutContent` | fuse/cache.go:78-82 | content is stored under its version, everything else is kept |
| `VfsCache.Cache.GetDentries` | fuse/cache.go:84-95 | a live listing is returned, an expired one is removed |
| `VfsCache.Cache.PutDentries` | fuse/cache.go:97-103 | a listing is stored with its expiry, everything else is kept |
| `VfsCache.Cache.Invalidate` | fuse/cache.go:105-111 | a path loses its attributes and content, and its parent its listing |
| `CachedIo.StatCached` | fuse/handle.go:26-36 | attributes come from the live cache or from the server, which are then cached |
| `CachedIo.ContentReader` | fuse/handle.go:38-52 | content is served from the cache for the version the attributes name, or fetched and cached under the version it came with |
| `CachedIo.Store` | fuse/handle.go:162-174 | a write updates the server and then the cache; a lost reply leaves the cache as the source leaves it |
| `CachedIo.TruncatePath` | fuse/handle.go:75-91 | reading, resizing and writing back, with every refusal |
| `CachedIo.FlushBuffer` | fuse/handle.go:148-174 | a queue is replayed over empty or current content and written back, with every refusal |
| `CachedIo.RunStaysCoherent` | fuse/handle.go:26-52 | over every run, with arbitrary remote writers, each cached pair is what the server held at that version |
| `CachedIo.ServedVersionsNeverDecrease` | fuse/handle.go:38-52 | the versions of a path served over a run never decrease, across expiry, flushes, unlinks and lost replies |
| `CachedIo.ServedContentsWereHeld` | fuse/handle.go:38-52 | every content served is what the server held at its version |
| `CachedIo.ReadAfterExpiryIsCurrent` | fuse/handle.go:26-52 | after the attributes expired, a read serves what the server holds at some moment during that read |
| `CachedIo.SerializedRunsAreSafe` | fuse/fs_windows.go:238-331 | the three together, from an empty cache, for every run of calls made one at a time |
| `CachedIo.InterleavedReadersGoBack` | fuse/handle.go:38-52 | without serialization a read can go back to an older version |
| `Interleaving.InterleavedRunsStayCoherent` | fuse/handle.go:26-52 | however the remote calls and cache calls of any number of handles interleave, each cached pair is what the server held at that version, each cached node describes a file it had, and everything learned was held |
| `Interleaving.StatIsRun` | fuse/handle.go:26-36 | a stat made alone is such a run |
| `Interleaving.FetchIsRun` | fuse/handle.go:38-52 | so is a read whose attributes were found |
| `Interleaving.StoreIsRun` | fuse/handle.go:162-174 | so is a write with its cache updates |
| `UnixHandle.FileHandle.Open` | fuse/fs.go:168-190 | the checks of an open in their order, and the handle: clean, or dirty and starting from nothing when truncating |
| `UnixHandle.FileHandle.Create` | fuse/fs.go:217-240 | the read-only check, the server's create, the cache updates and the handle |
| `UnixHandle.FileHandle.Write` | fuse/fs.go:352-371 | a write within the limit is queued and marks the handle dirty; refusals change nothing |
| `UnixHandle.FileHandle.Truncate` | fuse/fs.go:373-385 | the same for a truncate |
| `UnixHandle.FileHandle.Materialize` | fuse/fs.go:422-436 | what the handle reads: its queue over its base |
| `UnixHandle.FileHandle.Read` | fuse/fs.go:324-344 | the asked window of that content |
| `UnixHandle.FileHandle.Flush` | fuse/fs.go:387-420 | a dirty handle's queue is committed and emptied, or kept on failure |
| `UnixHandle.FileHandle.Release` | fuse/fs.go:444-453 | a release flushes what is still dirty |
| `UnixHandle.ReachableHandlesAreSound` | fuse/fs.go:304-322 | over every run of a handle, `dirty` and `flushed` are never both set, a clean handle has no operations, and everything queued fits |
| `UnixHandle.NewHandlesAreSound` | fuse/fs.go:168-240 | both give sound handles, and a writing or truncating one only on a writable file of a writable mount |
| `UnixHandle.ReleaseLosesNothing` | fuse/fs.go:387-453 | a failed flush or release keeps every accepted operation, a successful release leaves nothing queued |
| `UnixHandle.FlushedDataReachedServer` | fuse/fs.go:387-420 | a flush that reports success put the whole queue, over the base it read, on the server |
| `UnixHandle.FlushKeepsReadableContent` | fuse/fs.go:387-436 | without remote writers a handle reads the same before and after a flush, and a flush fails exactly when that content cannot be read, with the same error |
| `WinFs.Adapter.constructor` | fuse/fs_windows.go:35-43 | an adapter starts without handles |
| `WinFs.Adapter.Alloc` | fuse/fs_windows.go:135-141 | a new handle never takes the number of an open one |
| `WinFs.Adapter.Open` | fuse/fs_windows.go:196-220 | the checks of an open in their order, the truncating write, and the new handle |
| `WinFs.Adapter.Write` | fuse/fs_windows.go:307-332 | one write, checked, read, spliced and committed |
| `WinFs.Adapter.Truncate` | fuse/fs_windows.go:252-282 | one truncate, checked and committed |
| `WinFs.Adapter.Read` | fuse/fs_windows.go:284-305 | a read copies the window of the current content |
| `WinFs.Adapter.Release` | fuse/fs_windows.go:336-339 | a release forgets its handle and no other |
| `MountEquivalence.CommitAllIsReplay` | fuse/fs_windows.go:252-332 | committing operations one by one is replaying the accepted ones as one log |
| `MountEquivalence.QueueRunIsReplay` | fuse/fs.go:352-453 | queueing with flushes and releases at any moments is replaying the accepted operations as one log |
| `MountEquivalence.ContentsAgreeIff` | fuse/handle.go:93-174 | the two ways end with the same content exactly when an oversized file is not written to before it is truncated |
| `MountEquivalence.UnixMountRuns` | fuse/fs.go:324-453 | the Unix mount, cache and all, with reads, flushes and releases, does to the server what the queue does |
| `MountEquivalence.WinMountRuns` | fuse/fs_windows.go:252-332 | the Windows mount, cache and all, commits each call |
| `MountEquivalence.WinMountOpens` | fuse/fs_windows.go:196-220 | opening leaves the content, or empties it when truncating |
| `MountEquivalence.MountsLeaveSameContentIff` | fuse/fs_windows.go:196-332 | the same operations through both mounts leave the same content on the server exactly under that condition |
| `MountEquivalence.OversizedWriteThenTruncateDiffers` | fuse/handle.go:93-107 | an input on which the two mounts differ |
| `VfsClient.Client.constructor` | fuse/client.go:89-92 | a new client has no connection and has sent nothing |
| `VfsClient.Client.ReadFrame` | fuse/client.go:239-257 | one frame, an answer or a foreign one under any id, or an error |
| `VfsClient.Client.Await` | fuse/client.go:225-237 | frames are skipped until one has the awaited id |
| `VfsClient.AwaitedOwnIff` | fuse/client.go:225-237 | what is accepted for a request is the server's answer to it iff no foreign frame read on the way carried its id |
| `VfsClient.ForeignFrameIsTaken` | fuse/client.go:230-233 | every foreign frame under the awaited id is taken for the answer |
| `VfsClient.RequestsFollowHandshake` | fuse/client.go:155-196 | every request but a handshake went out after the answered handshake of its connection |
| `VfsClient.Client.RoundTrip` | fuse/client.go:198-237 | one request is sent under a fresh id, and what is taken for its answer is it unless the frame was foreign |
| `VfsClient.Client.Auth` | fuse/client.go:178-196 | only handshakes are sent, and success needs a good result under the handshake's id |
| `VfsClient.Client.Dial` | fuse/client.go:155-176 | a new connection is authenticated before it is used, or closed |
| `VfsClient.Client.Attempt` | fuse/client.go:114-153 | one try of a call, connecting if need be |
| `VfsClient.Client.Call` | fuse/client.go:114-153 | a returned response answers this call's own request iff its frame was not foreign; the request went out at most twice, always after the answered handshake of its connection |
| `VfsClient.Client.Run` | fuse/client.go:114-264 | over any run of calls every response answers the request of its own call or is foreign, and none is without foreign frames |
| `Ident.SplitCaseBoundaries` | pg/pg_mcp/src/codegen/ident.rs:90-108 | the case-boundary pass |
| `Ident.DeriveBase` | pg/pg_mcp/src/codegen/ident.rs:59-84 | lowering, collapsing, trimming and guarding |
| `Ident.Derive` | pg/pg_mcp/src/codegen/ident.rs:35-55 | the derived identifier, cut and suffixed when too long |
| `Ident.BaseIsCanonical` | pg/pg_mcp/src/codegen/ident.rs:59-84 | every base is made of single-separated runs without a leading digit |
| `Ident.DerivedIsPlain` | pg/pg_mcp/src/codegen/ident.rs:35-55 | every derived identifier is empty or valid, and at most 63 bytes |
| `Ident.DerivedEmptyIff` | pg/pg_mcp/src/codegen/ident.rs:35-84 | a derived name is empty exactly when there is no prefix and no character lowers to an ASCII letter or digit |
| `Ident.BaseFixedIff` | pg/pg_mcp/src/codegen/ident.rs:59-84 | the names that derive to themselves are exactly the canonical ones |
| `Ident.DeriveTwiceIff` | pg/pg_mcp/src/codegen/ident.rs:35-55 | deriving twice equals deriving once, except exactly for names cut where the 55th byte is a separator |
| `Ident.CutFormIff` | pg/pg_mcp/src/codegen/ident.rs:44-53 | a cut name is canonical exactly when it is not cut after a separator |
| `Collisions.FreeFromBound` | pg/pg_mcp/src/codegen/ident.rs:143-152 | the search for a free ordinal ends within as many steps as names are taken |
| `Collisions.FindFree` | pg/pg_mcp/src/codegen/ident.rs:136-152 | the loop finds the first free candidate |
| `Collisions.Dedup` | pg/pg_mcp/src/codegen/ident.rs:120-158 | the loop over a batch resolves its collisions |
| `Collisions.ResolvedIsValid` | pg/pg_mcp/src/codegen/ident.rs:120-158 | for any hash and any batch below 10^53 names the identifiers are distinct, in [a-z0-9_] without a leading digit, and at most 63 bytes |
| `Collisions.OnlyFirstIsEmpty` | pg/pg_mcp/src/codegen/ident.rs:120-158 | an identifier is empty exactly when its name derives to nothing and no earlier identifier is empty, so at most one is |
| `Collisions.ResolvedIsStable` | pg/pg_mcp/src/codegen/ident.rs:120-158 | later names never change the identifiers of earlier ones |
| `Collisions.FirstComesFirst` | pg/pg_mcp/src/codegen/ident.rs:120-135 | a name keeps its derived identifier exactly when no earlier name took it |
| `Upstreams.ExactlyOneSlice` | pg/pg_mcp/src/tables/catalog.rs:239-263 | an item is in the slice of its own prefix and in no other, unless its name starts with a dot |
| `Upstreams.LocalThenGlobal` | pg/pg_mcp/src/tables/catalog.rs:239-263 | putting the prefix back on a sliced item gives the item |
| `Upstreams.SlicingIsLosslessIff` | pg/pg_mcp/src/import.rs:325-336 | the slices together are the list, item for item, exactly when no name starts with a dot |
| `ToolPlan.BuildInputs` | pg/pg_mcp/src/codegen/mod.rs:312-341 | input columns in property order, with hash suffixes for repeated names |
| `ToolPlan.BuildParams` | pg/pg_mcp/src/codegen/mod.rs:362-386 | required parameters in their order, then optional ones |
| `ToolPlan.ParamsArePermutation` | pg/pg_mcp/src/codegen/mod.rs:362-386 | with unique `required` names the parameters are the input columns, each once |
| `ToolPlan.PlannedParams` | pg/pg_mcp/src/codegen/mod.rs:292-413 | a planned tool's parameters are a permutation of its inputs with the required ones first |
| `ToolPlan.AssignNames` | pg/pg_mcp/src/codegen/mod.rs:228-241 | every tool gets the identifier of its schema's group |
| `ToolPlan.PlanEach` | pg/pg_mcp/src/codegen/mod.rs:243-279 | each tool is planned or skipped |
| `ToolPlan.RoutesAreNamed` | pg/pg_mcp/src/codegen/mod.rs:205-226 | exactly the named tools are routed, each once and in order |
| `ToolPlan.RouteKeepsName` | pg/pg_mcp/src/codegen/mod.rs:216-225 | a route splits the name at its first dot into a schema and a local name that give it back, or keeps it whole |
| `ToolPlan.Plan` | pg/pg_mcp/src/codegen/mod.rs:187-279 | routing, naming and planning a tool list; an empty target schema is refused |
| `ToolPlan.NamesAreUnique` | pg/pg_mcp/src/codegen/mod.rs:205-241 | no two tools of one schema share an identifier, in both schema modes |
| `ToolPlan.PositionsCover` | pg/pg_mcp/src/codegen/mod.rs:243-279 | every named tool is in exactly one of the planned and skipped lists |
| `ToolPlan.PlannedInOrder` | pg/pg_mcp/src/codegen/mod.rs:243-279 | the planned list follows the tool list, under the computed names and schemas |
| `ToolPlan.SkippedInOrder` | pg/pg_mcp/src/codegen/mod.rs:243-279 | so does the skipped list |
| `ToolPlan.PlannedToolsAreUnique` | pg/pg_mcp/src/codegen/mod.rs:187-279 | schema and identifier together name one planned tool |
| `PgValues.IntsBelowLimitAreExact` | pg/pg_mcp/src/quals.rs:125-132 | integers up to 2^53 compare exactly as 64-bit floats |
| `PgValues.FloatsConfuseLargeInts` | pg/pg_mcp/src/quals.rs:125-132 | two integers past it that compare equal |
| `Clauses.GetForeignPlan` | pg/pg_mcp/src/fdw.rs:285-376 | the loop splits the clauses into pushed, parameter-bound and local ones |
| `Clauses.ResolveParamQuals` | pg/pg_mcp/src/fdw.rs:1004-1041 | parameters become equalities at executor start; NULL and uncarried values become nothing |
| `Clauses.PushedClauseMeans` | pg/pg_mcp/src/fdw.rs:396-591 | every pushed clause but `= ALL`, in every shape and arm order, is true exactly of the rows it asks for under three-valued logic, and contributes exactly the comparison imposed for it |
| `Clauses.AllMeans` | pg/pg_mcp/src/fdw.rs:498-515 | `column = ALL($n)` is pushed and contributes nothing; it is true exactly when the array is there and every element is the row's value |
| `Clauses.UnmixedTestIs` | pg/pg_mcp/src/fdw.rs:523-591 | when the tested and the compared parameter are of one kind, the null test succeeds exactly when there is nothing to compare |
| `Clauses.ScanQualsAre` | pg/pg_mcp/src/fdw.rs:305-346 | a scan starts with exactly the restrictions of its clauses |
| `CatalogScan.EqualitiesAgree` | pg/pg_mcp/src/quals.rs:92-132 | on text, booleans and exact integers the extension's equality is PostgreSQL's, exactly on cells without NULs |
| `CatalogScan.KeepsIffAdmitted` | pg/pg_mcp/src/tables/catalog.rs:197-222 | a pushed clause keeps exactly the rows it admits |
| `CatalogScan.ClauseIsExactIff` | pg/pg_mcp/src/fdw.rs:523-591 | a pushed clause keeps a row iff it is true of it, exactly unless it admits too much or loses it; for the optional shape: iff there is nothing to compare and the tested parameter is NULL, or the filter finds the compared value, or the tested parameter has a value and the row does not have the compared one |
| `CatalogScan.ScanReturnsAdmitted` | pg/pg_mcp/src/tables/catalog.rs:197-222 | for every clause list the scan returns, in order, exactly the rows that every clause admits; nothing is asked of clauses that stay local |
| `CatalogScan.ScanIsExactIff` | pg/pg_mcp/src/fdw.rs:305-346 | for every clause list it returns exactly the rows of the WHERE clause iff no row admitted by all is too much for one (an unapplied `= ALL`, an equality with NULL, a skipped optional shape whose tested parameter has a value) and no row that passes all is lost by one (an applied optional shape whose tested parameter is NULL, or a compared value that the row only has once its NULs are dropped) |
| `CatalogScan.HarmlessScanIsExactIff` | pg/pg_mcp/src/fdw.rs:305-346 | when no `= ALL` is pushed, no equality meets NULL, and optional shapes test NULL exactly when they compare with it, the scan is exact iff no row that passes has a NUL in a compared column |
| `CatalogScan.ScanIsExact` | pg/pg_mcp/src/fdw.rs:305-346 | so it is then exact on every table whose pushed columns hold no NULs |
| `CatalogScan.HarmlessIff` | pg/pg_mcp/src/fdw.rs:1004-1041 | for the usual shapes that is to say that every pushed parameter resolves |
| `CatalogScan.NullParametersReturnTooMuch` | pg/pg_mcp/src/fdw.rs:1004-1041 | whenever a pushed equality meets a NULL parameter the WHERE clause is true of nothing, and the scan is exact iff the clauses admit nothing |
| `CatalogScan.MixedKindsLoseRows` | pg/pg_mcp/src/fdw.rs:523-591 | the optional shape is recognized by parameter number alone: rows that pass the clause and that the scan loses |
| `CatalogScan.AllReturnsTooMuch` | pg/pg_mcp/src/fdw.rs:498-515 | rows that fail `= ALL` and that the scan returns |
| `CatalogScan.NulsLoseRows` | pg/pg_mcp/src/fdw.rs:918-930 | every name with a NUL in it is lost to the query that asks for it as PostgreSQL shows it |
| `PerTool.ArgumentsFromQuals` | pg/pg_mcp/src/tables/per_tool.rs:167-195 | the loop gathers the first equality of each input column |
| `PerTool.GatheredMeans` | pg/pg_mcp/src/tables/per_tool.rs:167-195 | there are arguments iff every required input is supplied, and then they are each supplied property with its value and nothing else |
| `PerTool.InvokeAndShape` | pg/pg_mcp/src/tables/per_tool.rs:210-287 | the rows of one result, for all output shapes and for errors |
| `PerTool.RowsCarryResult` | pg/pg_mcp/src/tables/per_tool.rs:210-306 | each row has its arguments, its element's or result's outputs, the content and the error flag in their columns; a list gives a row for each element, everything else one |
| `PerTool.BeginScan` | pg/pg_mcp/src/tables/per_tool.rs:358-367 | the gate is settled before anything is sent, the tool list may be asked for next, and the arguments are settled before the one call |
| `PerToolScan.EchoIff` | pg/pg_mcp/src/tables/per_tool.rs:431-473 | an argument is echoed as the value it was bound to, except exactly jsonb null |
| `PerToolScan.MatchedIsEqual` | pg/pg_mcp/src/tables/per_tool.rs:313-355 | an output that passes the filter has the asked value |
| `PerToolScan.EqualIsMatchedIff` | pg/pg_mcp/src/tables/mod.rs:170-190 | an output with the asked value passes the filter iff it is recognized: text and dates in the same spelling, nested json in the same form, never jsonb null, a uuid or a timestamp |
| `PerToolScan.OtherSpellingIsMissed` | pg/pg_mcp/src/tables/mod.rs:170-190 | every other spelling of the asked date is missed |
| `PerToolScan.RowsAreWellShaped` | pg/pg_mcp/src/tables/per_tool.rs:210-306 | every row is full width, typed, and repeats the arguments |
| `PerToolScan.EmittedRowsSatisfyIff` | pg/pg_mcp/src/tables/per_tool.rs:210-367 | every row that comes back has inputs + outputs + 2 columns and satisfies every pushed clause iff each clause agrees with what was sent: its null test succeeds, or its value is carried and, on an input, is the argument sent; `= ALL` has to hold by itself |
| `PerToolScan.AgreeingIff` | pg/pg_mcp/src/tables/per_tool.rs:167-195 | for the usual shapes that is to say that no clause is lost to a parameter without a value, none binds jsonb null, and clauses that bind one input agree |
| `PerToolScan.RowsComeBackIff` | pg/pg_mcp/src/tables/per_tool.rs:313-367 | a row of the call comes back iff every pushed comparison on an output finds its value there in a recognized form |
| `PerToolScan.ComesBackIffSatisfied` | pg/pg_mcp/src/tables/per_tool.rs:313-367 | so, for agreeing clauses and recognized outputs, a row comes back iff it satisfies every pushed clause |
| `PerToolScan.DisagreeingClausesReturnRow` | pg/pg_mcp/src/tables/per_tool.rs:313-333 | `x AND NOT x` on a boolean input returns a row |
| `GeneratedFunctions.FunctionBody` | pg/pg_mcp/src/codegen/function.rs:46-76 | the loop writes one condition for each parameter, optional ones guarded by a null test |
| `GeneratedFunctions.InsertArguments` | pg/pg_mcp/src/tables/per_tool.rs:388-418 | the INSERT path gathers the tuple's values |
| `GeneratedFunctions.PlannedFunctionIsGood` | pg/pg_mcp/src/codegen/mod.rs:292-413 | a planned tool has the shape the theorems ask for |
| `GeneratedFunctions.BodiesSendTheSameIff` | pg/pg_mcp/src/codegen/function.rs:46-151 | with every required value given, the generic and the folded plan send the same arguments, the INSERT too iff no passed float is a NaN or infinity, and they are exactly the values that are not NULL |
| `GeneratedFunctions.NonFiniteDiffers` | pg/pg_mcp/src/fdw.rs:1379-1429 | for every such float the INSERT sends something else |
| `GeneratedFunctions.NullRequiredSendsNothing` | pg/pg_mcp/src/tables/per_tool.rs:167-195 | when a required value is NULL none of the three sends anything |
| `Sse.ReadUntilId` | pg/pg_mcp/src/sse.rs:54-129 | the line loop, with its deadline, finds the wanted message among the dispatched events |
| `Sse.FindMeans` | pg/pg_mcp/src/sse.rs:89-107 | the answer is the first event with the wanted id, and the observer saw exactly the messages up to and including it |
| `Sse.EventsAreStandard` | pg/pg_mcp/src/sse.rs:67-128 | on LF and CRLF streams the dispatched events are those of section 9.2.6 of the WHATWG HTML standard |
| `Sse.MarkedEventsAreStandardIff` | pg/pg_mcp/src/sse.rs:67-128 | after a byte order mark they are those of the standard iff the mark does not hide a data line that a blank line dispatches |
| `Sse.ReaderRefinesStandard` | pg/pg_mcp/src/sse.rs:54-140 | so the reader answers with the standard's first event that has the wanted id |
| `Sse.LoneCrIsMissed` | pg/pg_mcp/src/sse.rs:87-107 | every data line ended by lone CRs is an event the reader does not see |
| `Sse.BomIsMissed` | pg/pg_mcp/src/sse.rs:109-127 | every data line after a mark, with a blank line after it, is hidden |
| `Sse.AnswerIsFinalIff` | pg/pg_mcp/src/sse.rs:75-107 | an answer stands whatever the stream goes on with, iff it was reached within the terminated lines |
| `Sse.AnswerIsFinal` | pg/pg_mcp/src/sse.rs:75-107 | so it stands on every stream that does not end in CR |
| `McpSession.Client.TakeId` | pg/pg_mcp/src/client.rs:328-332 | ids are handed out once each |
| `McpSession.Client.DoInitialize` | pg/pg_mcp/src/client.rs:154-187 | the handshake and its notification, with every failure |
| `McpSession.Client.DoTryRequest` | pg/pg_mcp/src/client.rs:216-272 | one request under the current session header, and what its answer means |
| `McpSession.Client.DoRequest` | pg/pg_mcp/src/client.rs:191-213 | a request, re-initialized and sent again when the session is gone |
| `McpSession.Sessions.DoWithSession` | pg/pg_mcp/src/session.rs:150-190 | taking a session from the map or opening one, and putting it back unless the outcome is a transport error or a cancel unwinds past that point |
| `McpSession.Sessions.DropSession` | pg/pg_mcp/src/session.rs:193-195 | dropping a session |
| `McpSession.RequestShape` | pg/pg_mcp/src/client.rs:191-272 | one request sends one of four sequences: at most one handshake, the method at most twice, the second time with the new session's header; a handshake iff the first answer says the session is gone; the outcome is the last answer's |
| `McpSession.RunsKeepIdsOrdered` | pg/pg_mcp/src/client.rs:328-332 | over every run of a backend, against any network, the ids each session sends increase strictly |
| `McpSession.KeptIff` | pg/pg_mcp/src/session.rs:167-187 | a session is in the map afterwards iff there was one to run on, the outcome is not a transport error and the statement was not cancelled; it is that one, on the asked URL, and others are untouched |
| `McpSession.QuietRunsInitializeOnce` | pg/pg_mcp/src/client.rs:154-187 | over every run of a backend, with any keys, URLs, drops, cancels and transport errors, `initialize_count` is 1 for every session as long as no reply says a session is gone |
| `McpSession.OneHandshakeForManyCalls` | pg/pg_mcp/src/session.rs:148-190 | in particular any number of calls on one key and URL make one handshake in all, as long as no call is cancelled and no outcome is a transport error either |
| `ListAll.All` | pg/pg_mcp/src/client.rs:383-421 | against any server at most 1000 requests, no cursor followed twice, success means every page of a complete chain in order, and each failure its reason |
| `ListAll.ChainsAreReturnedWhole` | pg/pg_mcp/src/client.rs:383-421 | every chain of at most 1000 pages with distinct cursors is returned whole |
| `CatalogCache.Catalog.constructor` | pg/pg_mcp/src/cache.rs:76-81 | the cache starts empty |
| `CatalogCache.Catalog.TakeFlag` | pg/pg_mcp/src/client.rs:100-102 | taking the flag clears it |
| `CatalogCache.Catalog.Observe` | pg/pg_mcp/src/client.rs:92-96 | an observed change sets it |
| `CatalogCache.Catalog.Store` | pg/pg_mcp/src/cache.rs:115-132 | a successful fetch is stored under its own key, unless the TTL is 0 |
| `CatalogCache.Catalog.DoDropTools` | pg/pg_mcp/src/cache.rs:138-146 | the tools of one key are dropped, nothing else |
| `CatalogCache.Catalog.DoFetchList` | pg/pg_mcp/src/tables/catalog.rs:278-311 | a catalog scan: flag, cache, fetch, and the fate of the session; the handshake's slice is not fail-open |
| `CatalogCache.Catalog.DoResolveTool` | pg/pg_mcp/src/tables/per_tool.rs:80-117 | a per-tool table: cache, fetch, then the flag |
| `CatalogCache.Catalog.Refresh` | pg/pg_mcp/src/api.rs:273-280 | a refresh drops the session and every slice of its key |
| `CatalogCache.ScansReturnTheReply` | pg/pg_mcp/src/tables/catalog.rs:290-311 | a scan returns and stores what the server sent, an unknown method reading as empty, or what was cached, without asking |
| `CatalogCache.ScansKeepOthers` | pg/pg_mcp/src/cache.rs:115-146 | it touches no other slice, except that it may drop its own server's tools |
| `CatalogCache.StepKeepsExactIff` | pg/pg_mcp/src/tables/catalog.rs:290-303 | a step keeps "flag clear iff no change was observed since the cached tools' fetch began" iff it does not lose a change: tools are cached, and the URL is replaced under a set flag, or a request dies on the transport or by a cancel with the flag set before or meanwhile |
| `CatalogCache.RunsKeepExact` | pg/pg_mcp/src/cache.rs:90-158 | so it holds over every run that loses no change |
| `CatalogCache.ScansServeCurrent` | pg/pg_mcp/src/tables/catalog.rs:290-303 | a tools scan never serves a slice older than an observed change |
| `CatalogCache.ResolveServesCurrentIff` | pg/pg_mcp/src/tables/per_tool.rs:88-102 | a per-tool table serves a current slice iff the flag is clear, and drops it otherwise |
| `CatalogCache.LostFlagServesStale` | pg/pg_mcp/src/session.rs:182-187 | whenever a flagged session is lost, the next tools scan serves the stale slice until its TTL ends |
| `CatalogCache.CachedAnswersAreOwn` | pg/pg_mcp/src/cache.rs:90-133 | in every run a cached answer, of a scan and of a per-tool table, was fetched for the same server, user and list, and is younger than the caller's TTL |
| `CatalogCache.FailuresAreNotStored` | pg/pg_mcp/src/cache.rs:86-98 | a failure stores nothing, and neither does a TTL of 0 |

## Left out

- VfsClient.Client.Call: timeouts fall between frames, not inside one.
- CachedIo.SerializedRunsAreSafe: cached contents are values; that the cache shares one array with its readers is covered only by `FileOps.ApplyFileOps`.
- UnixHandle.FlushKeepsReadableContent: stated without remote writers, as with them the base may change between the two reads.
- MountEquivalence.MountsLeaveSameContentIff: stated without remote writers, on a writable file the cache is current about.
- PerToolScan.EmittedRowsSatisfyIff: outputs have integers within 2^53, and the table matches the tool's current columns.
- PerToolScan.MatchedIsEqual: jsonb numbers are integers or values of 64-bit floats; a numeric that no float represents is rounded by the source and is not modelled.
- ToolPlan.Plan: warnings, titles and descriptions are not modelled, and the shape of an output schema is taken as classified.
- CatalogScan.ScanReturnsAdmitted: pushable columns hold text, booleans and integers within 2^53; the columns that the catalog tables push are all text.
- GeneratedFunctions.BodiesSendTheSameIff: parameters have the column types, so arrays do not occur; what constant folding does is PostgreSQL's documented behaviour, written out as a function.
- Upstreams.SlicingIsLosslessIff: takes the upstream list as a set; its order is not modelled.
- McpSession.OneHandshakeForManyCalls: a statement's work is the sequence of requests it turned out to make and what it concluded from the last.
- Sse.ReadUntilId: streams are characters; invalid UTF-8, read errors and interrupts end a read early and are not told apart from a cut stream.
- CatalogCache.RunsKeepExact: times are parameters of each step; that clocks advance is not used.
- Sockets, HTTP, TLS, JSON text and its encoding, frame sizes below the limit check, logging.
- The control nodes, modes, times and directory listings of the mount, and kernel caching.
- Wrap-around of request ids, handle numbers and counters, which are unbounded here.
- SHA-256, reserved words, DDL text, comments and object prefixes of generated objects; the hash is any function to seven hexadecimal characters.
- The registry of generated objects, privileges, secrets and user mappings.
- The read-through tables and the tool_calls table, which would add the same kind of argument gathering again.
- PerTool.InvokeAndShape: a uuid, date or timestamp text that PostgreSQL's input function rejects reads as NULL here, where the function raises and ends the statement.
- Sse.LoneCrIsMissed: streams with lone CRs have a failing family and no exact condition; the promise is for LF and CRLF streams.
- The Elixir server library itself is not part of this model.
