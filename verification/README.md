# Knowledge assistant: a verified model

A Dafny model of the stateful core of a knowledge assistant: the import of document chunks into a
vector table, the life of gateway MCP sessions and the tools they offer, the user's tokens and the
gateway's exchanged tokens, and the check of the release log. `dafny verify dfyconfig.toml` checks
the whole project with Dafny 4.11.

## The parts

- **Document import.** `DocumentTable` is the `documents` table with its unique key and a count of
  write statements; `DocumentSync` skips or replaces one document by fingerprint; `LangflowMapping`
  numbers chunks by source and remaps sources; `Reconciliation` imports a batch and removes Langflow
  fallbacks that a host document makes redundant; `ReportedCount` is about the number it returns and
  `NeverSettling` about batches that are rewritten for ever; `LangflowIngest` uploads, runs and
  deletes files.
  The main results are convergence: an import is silent exactly on a settled table, two imports
  settle it for a batch whose indices run from zero, one does under an exact condition on the table
  before it, and for a host document whose indices leave a gap or repeat no number does.
  `ImportMeaning`, `MappingMeaning` with `FilingOrder`, and `UploadMeaning` say what an import, a
  mapping and an ingest do, row by row, chunk by chunk and call by call.
- **MCP sessions and tools.** `McpLifecycle` is a state machine whose steps run from one `await` to
  the next, for any number of concurrent connects, disconnects and reconnects; `ToolNames`,
  `ChatTools` and `ToolFacts` are the naming, registration, dispatch and reporting of tools.
  `ConnectRuns` gives the exact outcome of each run of a request and that the locks cannot deadlock;
  `CatalogMeaning`, `OfferMeaning` and `FactMeaning` say which tools are listed, which are offered and
  which reports are appended.
- **Tokens.** `TokenStores` holds the memory and Postgres stores and the simulation between them;
  `TokenManager` refreshes tokens (RFC 6749 sections 5.2 and 6) and `RefreshRaces` interleaves such
  refreshes; `TokenCache`, `Registry` and `GatewayPipeline` are the gateway that exchanges tokens
  (RFC 8693 section 2). `StoreMeaning`, `RegistryMeaning` and `Handoffs` say what the stores and the
  cache hold, what is listed and refused, and which request is given which token.
- **Release log.** `ReleaseLog` is the checker and the language of heading lists that it accepts;
  `LogMeaning` says when each complaint is made, and `VersionOrder` that versions and dates are
  compared by their numbers.
- `Text`, `StableSort`, `Grouping`, `Positions` and `Wrappers` hold the string operations, the stable
  sort, the insertion-ordered grouping, the places of selected entries and the option types that the
  rest uses.

Code that updates objects or runs loops is modelled by classes and methods, each proved equal to a
specification function; the properties are lemmas about those functions over all inputs and runs.
The modules named after a meaning state results without those functions: in terms of the inputs,
field by field.

## Assumptions

- SHA-256 and UUID version 5 are function parameters. Injectivity is a hypothesis only where a lemma
  names it: `InjectiveOnNames` for ids of trimmed, non-blank names, and `Sound` for the cache key,
  which also asks that server ids hold no NUL.
- Whether a row is a fallback depends on its document id only (`Kinded`). Imports keep this
  (`RunEffect`), and rows stored under the id of their own source satisfy it (`CanonicalTableIsKinded`).
- Clock reads, HTTP answers, tool listings and the outcome of callbacks are parameters.
- A token's expiry is counted from its issue on the gateway's time line: `expires_in` seconds later,
  or five minutes without one.
- Swapping a session installs the new entry and returns the old one, and stopping a runner task ends
  it; both belong to Chainlit, which is not part of this model.

## Where the code does less than one might expect

- One import need not settle the table (`OneRunMayNotSettle`); `OneRunSettlesIff` says when it does.
- Chunks whose indices leave a gap or repeat are rewritten on every sync (`ResyncSkipsIff`), so
  importing them never settles (`RestlessNeverSettles`).
- A chunk's `document_id` strips the source but grouping does not, so two spellings of a source share
  an id and its indices repeat (`TwoSpellingsCollide`); `RemapNumbersIff` says exactly when.
  One trailing blank is enough to make every import write (`PaddedPathNeverSettles`).
- Registered tools and open sessions can disagree in both directions
  (`ReplacingAStaleSessionForgetsTools`, `DisconnectDuringProbeLeavesTools`); `StepAgreesIff` names
  the steps that break and repair the agreement, and `ToolsFollowSessionsIff` follows whole runs.
- The memory store can resolve sessions that Postgres has forgotten (`RebindingSeparatesTheStores`);
  `StoresAgreeIff` gives the guards under which the two resolve every session alike.
- A refresh that is rejected deletes the tokens stored by then, which another call may have saved
  meanwhile (`OverlapLosesTokens`); `DiscardLosesIff` says exactly when that happens, and
  `ExclusiveRunsLoseNothing` that it never does without overlap.
- A cached token outlives its expiry iff the two clock reads of its put differ by more than five
  seconds and by more than the maximal lifetime leaves over (`MarginIsExact`).
- The tools of a connection with the empty name are advertised, but calling them is reported as
  unknown (`AdvertisedToolsDispatch`).

## Model

| member | source | states |
|---|---|---|
| DocumentTable.VectorRepository.ListChunkFingerprints | src/knowledge_mcp/repository.py:107-125 | strictly ascending in chunk index; every listed row is stored under the document with that digest and model, and no stored row is missing |
| DocumentTable.Fingerprints | src/knowledge_mcp/repository.py:107-125 | one fingerprint per stored row, at its rank in ascending chunk order |
| DocumentTable.VectorRepository.ListHostPathHashes | src/knowledge_mcp/repository.py:127-137 | the digest of every row that is not a Langflow fallback, and each digest belongs to such a row |
| DocumentTable.VectorRepository.ListFallbackFingerprints | src/knowledge_mcp/repository.py:139-149 | exactly the (document, digest) pairs of fallback rows, in any order |
| DocumentTable.VectorRepository.DeleteByDocumentId | src/knowledge_mcp/repository.py:151-157 | afterwards no key of the document is in the table and every other key holds the row it held, after one write |
| DocumentTable.VectorRepository.UpsertDocument | src/knowledge_mcp/repository.py:159-202 | inserts or overwrites the row under (document id, chunk index), one write |
| DocumentSync.MatchIffStored | src/knowledge_mcp/ingest.py:65-76 | the fingerprint comparison succeeds exactly when the stored rows are numbered 0..n-1, carry the incoming digests and one model |
| DocumentSync.MatchFingerprints | src/knowledge_mcp/ingest.py:65-76 | answers whether the stored rows are numbered 0..n-1 and carry the digests of the contents under this one model |
| DocumentSync.ReplaceDocument | src/knowledge_mcp/ingest.py:79-98 | fails without a write on no chunks or mixed documents; otherwise each index holds the last incoming chunk of that index, field by field, with its digest, model and metadata, no other index has a row and no other document changes |
| DocumentSync.ReplaceStoresDrafts | src/knowledge_mcp/ingest.py:79-98 | after a replace the row of an index has the title, content, source and embedding of the last chunk of that index, the digest of that content, the model, and its metadata overlaid with source, index and version; other documents keep their rows |
| DocumentSync.SyncDocument | src/knowledge_mcp/ingest.py:101-117 | skips without a write iff the fingerprints match, else replaces, row by row and field by field as above; the ValueError cases change nothing |
| DocumentSync.SyncStoresIncoming | src/knowledge_mcp/ingest.py:101-117 | for chunks numbered 0..n-1, in any input order: the stored fingerprints become the incoming ones, other documents keep theirs, and it skips iff they matched |
| DocumentSync.ResyncSkipsIff | src/knowledge_mcp/ingest.py:101-117 | an immediate second sync writes nothing iff the fingerprints matched before the first or the chunks are numbered 0..n-1 |
| StableSort.SortedIsStable | src/knowledge_mcp/ingest.py:87 | the sort that `sorted` promises keeps equivalent elements in order |
| StableSort.SortedFixpointIffOrdered | scripts/validate_okf.py:186-187 | comparing a list with its stable sort succeeds iff it is pairwise ordered |
| Grouping.GroupBy | src/knowledge_mcp/langflow_import.py:64-66 | the dictionary of lists: keys in first-seen order, each key's items in input order |
| LangflowMapping.MapRows | src/knowledge_mcp/langflow_import.py:30-52 | rows are filed by source and numbered within it, in first-seen order of sources |
| LangflowMapping.Remap | src/knowledge_mcp/langflow_import.py:55-73 | sources are overridden, chunks regrouped and renumbered; a blank source raises |
| LangflowMapping.MoveOne | src/knowledge_mcp/langflow_import.py:57-62 | one chunk's new source, id and title, or the ValueError of a blank source |
| MappingMeaning.MappingDoes | src/knowledge_mcp/langflow_import.py:30-52 | one chunk for each row, filed by source in first-seen order, with the row's text, embedding, metadata, source, title and document id, numbered by its rank among the rows of its source |
| MappingMeaning.RemappingDoes | src/knowledge_mcp/langflow_import.py:55-73 | each chunk goes to the override of the first of its names that has one, with that source's id and, if it moved, title, numbered by its rank among the chunks of that target; nothing else in it changes |
| MappingMeaning.RemappingFailsIff | src/knowledge_mcp/langflow_import.py:55-73 | remapping raises iff some chunk's target is blank |
| FilingOrder.FirstSeenIsFirst | src/knowledge_mcp/langflow_import.py:64-66 | the place by which keys are ordered is that of the first item with the key |
| LangflowMapping.RegroupPermutes | src/knowledge_mcp/langflow_import.py:64-73 | nothing is lost, duplicated or altered apart from id and index |
| LangflowMapping.RegroupNumbersEachSource | src/knowledge_mcp/langflow_import.py:68-73 | each source's chunks keep their order and are numbered from zero |
| LangflowMapping.IndexIsRank | src/knowledge_mcp/langflow_import.py:68-73 | a chunk's index is its rank among the chunks of its source in the output |
| LangflowMapping.NumberedIffSeparated | src/knowledge_mcp/langflow_import.py:64-73 | indices per document id are exactly 0..n-1 iff no two sources of the input share an id |
| LangflowMapping.RemapNumbersIff | src/knowledge_mcp/langflow_import.py:55-73 | for any override map the same holds of a remapping iff no two of the chunks' target sources share an id |
| LangflowMapping.TwoSpellingsCollide | src/knowledge_mcp/chunk_ids.py:8-11 | an override map that spells one host path in two ways makes indices repeat |
| LangflowMapping.PaddedPathSharesId | src/knowledge_mcp/chunk_ids.py:8-11 | a path and the same path with a trailing blank are two such spellings |
| LangflowMapping.RemapNumbersDocuments | src/knowledge_mcp/langflow_import.py:55-73 | with trimmed, non-blank sources and override values remapping succeeds and numbers every document 0..n-1 |
| LangflowMapping.RemapWithoutOverrides | src/knowledge_mcp/langflow_import.py:55-73 | remapping freshly mapped rows with no overrides is the identity |
| LangflowMapping.MappedSourcesAreCanonical | src/knowledge_mcp/langflow_import.py:103-107 | mapped sources are non-blank and trimmed |
| Reconciliation.SyncMappedChunks | src/knowledge_mcp/langflow_import.py:173-200 | the database and the count after an import are those of the specification, for every batch and table |
| ImportMeaning.ImportDoes | src/knowledge_mcp/langflow_import.py:173-200 | one import, row by row: each due document has its rows rewritten to the fields of its chunks unless its fingerprints were stored, then exactly the documents with a fallback row that has a host's digest are removed; nothing else changes |
| ImportMeaning.ImportCounts | src/knowledge_mcp/langflow_import.py:188-200 | the import reports the number of chunks of the documents that it syncs |
| Reconciliation.FallbackIdsSharingHashes | src/knowledge_mcp/langflow_import.py:122-131 | the distinct ids with a shared digest, in order of first hit |
| Reconciliation.SyncGroupsEffect | src/knowledge_mcp/langflow_import.py:188-193 | after the syncing pass every wanted document is up to date and all others are untouched; no write iff all were up to date before |
| Reconciliation.RunEffect | src/knowledge_mcp/langflow_import.py:173-200 | one import: synced documents end up as the batch has them and are never removed by the cleanup; others keep their rows or, sharing a final host digest, lose all; the table invariant is kept |
| Reconciliation.FallbacksAndHostsAreDisjoint | src/knowledge_mcp/langflow_import.py:195-199 | after every import, of any batch into any table, no stored fallback row shares a digest with a stored host row |
| Reconciliation.SyncedGroupSurvives | src/knowledge_mcp/langflow_import.py:183-200 | no group synced in a run is removed by its cleanup, for any batch and table in which that group's id is not both host and fallback |
| Reconciliation.OutsideDocumentStaysIff | src/knowledge_mcp/langflow_import.py:173-200 | for any batch and table, a document outside the batch keeps all its rows, or loses all iff one of them is a fallback row with a blocking digest |
| Reconciliation.OtherHostsUntouched | src/knowledge_mcp/langflow_import.py:173-200 | for any batch and table, a document outside the batch without fallback rows is untouched |
| ReportedCount.ReportedCountIff | src/knowledge_mcp/langflow_import.py:188-200 | the returned count is at least the number of rows of the synced documents, and equal iff each was stored already or has no index twice |
| ReportedCount.ReportedCountIsStored | src/knowledge_mcp/langflow_import.py:188-200 | the returned count is the number of rows the synced documents end up with |
| Reconciliation.QuietIffSettled | src/knowledge_mcp/langflow_import.py:173-200 | an import writes nothing iff the table is settled for the batch, and then leaves it unchanged |
| Reconciliation.TwoRunsSettle | src/knowledge_mcp/langflow_import.py:173-200 | after two imports of a batch the third writes and deletes nothing |
| Reconciliation.OneRunSettlesIff | src/knowledge_mcp/langflow_import.py:183-199 | one import suffices iff each fallback group blocked only by outgoing host digests was up to date before |
| Reconciliation.OneRunSettlesWhenNoHashDropped | src/knowledge_mcp/langflow_import.py:183-199 | one import suffices when it drops no host digest |
| Reconciliation.OneRunMayNotSettle | src/knowledge_mcp/langflow_import.py:183-199 | a batch and a table for which the second import still writes |
| NeverSettling.RestlessNeverSettles | src/knowledge_mcp/ingest.py:65-117 | a batch with a host document whose indices leave a gap or repeat writes on every import, unless the table matches it from the start |
| NeverSettling.TwoSpellingsNeverSettle | src/knowledge_mcp/langflow_import.py:55-73 | a batch remapped with two spellings of one host path is such a batch |
| NeverSettling.PaddedPathNeverSettles | src/knowledge_mcp/langflow_import.py:55-73 | two chunks sent to `/a` and to the same path with a trailing blank, imported into an empty table, write on every import |
| Reconciliation.RemappedBatchIsWellFormed | src/knowledge_mcp/langflow_import.py:55-73 | remapped batches satisfy the hypotheses of the import theorems |
| Reconciliation.CanonicalTableIsKinded | src/knowledge_mcp/chunk_ids.py:8-11 | rows under the id of their own source determine fallback-ness by id |
| Reconciliation.ImportingTwiceSettles | src/knowledge_mcp/langflow_import.py:173-200 | from raw rows through remapping: two imports leave nothing for a third to write |
| LangflowIngest.IngestFiles | src/knowledge_mcp/langflow_ingest.py:98-123 | the calls made, and the report or the error, for every pattern of API and callback answers |
| LangflowIngest.HostMapMapsHosts | src/knowledge_mcp/langflow_ingest.py:116-117 | the reported overrides are the host paths of the files, each mapped to itself, and nothing else |
| LangflowIngest.TraceIsSafe | src/knowledge_mcp/langflow_ingest.py:110-122 | every successful upload is run and then deleted; sync is called once, last, iff all files succeeded |
| UploadMeaning.CallsWhenAllGoesWell | src/knowledge_mcp/langflow_ingest.py:110-123 | if all answers are good the calls are upload, flow and delete of each file in turn and then the sync, if there is one, with the override map |
| UploadMeaning.CallsUpToFailure | src/knowledge_mcp/langflow_ingest.py:110-115 | if file p is the first with a failure the calls end with its upload or, if that worked, with its delete, and there is no sync |
| UploadMeaning.OverridesDo | src/knowledge_mcp/langflow_ingest.py:102-121 | a key leads to the host path of the last file uploaded under it or, with a base name of its own, having it as base name or uploaded base name; no other key is in the map |
| Text.LastComponentIsLast | src/knowledge_mcp/langflow_ingest.py:102 | a path's base name is its last component that is neither empty nor a dot |
| LangflowIngest.UploadedChunkGoesHomeIff | src/knowledge_mcp/langflow_ingest.py:116-121 | a chunk with an uploaded path goes to its file's host path iff the last writer of that key has that host path |
| LangflowIngest.UploadedChunkGoesHome | src/knowledge_mcp/langflow_ingest.py:116-121 | with distinct uploaded paths that hold a slash it always does, whatever basenames collide |
| LangflowIngest.UploadsNeverMerge | src/knowledge_mcp/langflow_ingest.py:116-121 | chunks of two uploads get one document iff the files have one host path |
| McpLifecycle.StepKeepsInvariant | src/chat_ui/gateway_mcp_connect.py:177-410 | every step between two awaits keeps task ownership, stop counts and locks consistent |
| ConnectRuns.ConnectOpensSession | src/chat_ui/gateway_mcp_connect.py:177-356 | from any state with the lock free, a connect of a closed slot ends with the new task as its session, its tools registered, no lock and no request left, and nothing else changed |
| ConnectRuns.UnknownNameIsRefused | src/chat_ui/gateway_mcp_connect.py:200-202 | a connect to a name that is no gateway server changes nothing |
| ConnectRuns.DeniedConnectChangesNothing | src/chat_ui/gateway_mcp_connect.py:213-227 | without an access token or a URL nothing changes, and an open session stays, even one that did not answer |
| ConnectRuns.FailedRunnerIsStopped | src/chat_ui/gateway_mcp_connect.py:292-319 | a runner that fails or is not ready in time is stopped after one request; sessions and tools stay |
| ConnectRuns.FailedHookIsUndone | src/chat_ui/gateway_mcp_connect.py:321-356 | after a failed connect hook the new runner is stopped and sessions and tools are as before |
| ConnectRuns.AnsweringSessionIsReused | src/chat_ui/gateway_mcp_connect.py:64-101 | a session that answers is kept, with its tools registered again if the hook succeeds |
| ConnectRuns.StaleSessionIsReplaced | src/chat_ui/gateway_mcp_connect.py:177-356 | a session that does not answer is replaced: its task stops after one request and the new one is the session |
| ConnectRuns.DisconnectClosesSession | src/chat_ui/gateway_mcp_connect.py:372-388 | a disconnect closes the session, stops its task after one request and, if the hook succeeds, forgets its tools |
| ConnectRuns.IdleDisconnectChangesNothing | src/chat_ui/gateway_mcp_connect.py:372-388 | without a session there is nothing to disconnect |
| ConnectRuns.ReconnectRenewsSession | src/chat_ui/gateway_mcp_connect.py:391-410 | a reconnect of an open slot ends with the new task as its session, its tools registered, the prior task stopped after one request, and no request or lock left over |
| ConnectRuns.ReconnectOpensSession | src/chat_ui/gateway_mcp_connect.py:391-410 | a reconnect of a slot without a session opens one |
| ConnectRuns.FailedReconnectEnds | src/chat_ui/gateway_mcp_connect.py:391-410 | if the disconnect hook fails the reconnect ends with the session closed |
| ConnectRuns.ForcedRequestReplaces | src/chat_ui/gateway_mcp_connect.py:391-410 | a forced request does not reuse a session that has appeared meanwhile but replaces it |
| ConnectRuns.StepComesNearer | src/chat_ui/gateway_mcp_connect.py:177-410 | every step of a request brings it nearer to its end or ends it |
| ConnectRuns.NoDeadlock | src/chat_ui/gateway_mcp_connect.py:26-34 | in every interleaving, while a request is in flight some request can take a step without help from outside |
| McpLifecycle.EveryTaskHasOneOwner | src/chat_ui/gateway_mcp_connect.py:290-356 | in every interleaving a task that has not stopped has exactly one owner and no task is asked to stop twice |
| McpLifecycle.QuiescentTasksAreTheSessions | src/chat_ui/gateway_mcp_connect.py:342-410 | with no request in flight the live tasks are exactly those of the open sessions, one per slot, and no lock is held |
| McpLifecycle.OneConnectPerSlot | src/chat_ui/gateway_mcp_connect.py:165-174 | at most one connect per session and name is inside the lock |
| McpLifecycle.StepAgreesIff | src/chat_ui/gateway_mcp_connect.py:321-387 | exactly when a step, from any state, leaves a slot's tools registered iff it has a session, open or popped before its hook |
| McpLifecycle.ToolsFollowSessionsIff | src/chat_ui/gateway_mcp_connect.py:321-387 | in every interleaving tools and session agree all along iff no step breaks the agreement, and agree at the end iff it was repaired after it was last broken |
| McpLifecycle.QuiescentToolsAreTheSessionsIff | src/chat_ui/gateway_mcp_connect.py:321-387 | with no request in flight a slot has tools registered iff it has a session, exactly for the runs that end repaired |
| McpLifecycle.ReplacingAStaleSessionForgetsTools | src/chat_ui/gateway_mcp_connect.py:321-354 | from any state, replacing a stale session leaves it open with no tools registered |
| McpLifecycle.ReusingASessionRestoresTools | src/chat_ui/gateway_mcp_connect.py:74-101 | a later connect that reuses the session registers its tools again |
| McpLifecycle.DisconnectDuringProbeLeavesTools | src/chat_ui/gateway_mcp_connect.py:372-388 | a disconnect whose hook runs before a pending reuse is answered leaves tools registered without a session |
| ToolNames.FirstSepIffClean | src/chat_ui/mcp_tools.py:55-69 | the first double underscore ends the server id iff the id holds none and does not end in an underscore |
| ToolNames.AliasIsTool | src/chat_ui/mcp_tools.py:65-69 | for such ids the alias is the listed tool name |
| ToolNames.StrippingRecovers | src/chat_ui/mcp_tools.py:118-122 | stripping the prefix recovers the listed name for every id |
| ToolNames.IdsCollideIff | src/chat_ui/mcp_tools.py:55-56 | two servers can produce one name iff one id with its separator is a prefix of the other with its |
| ToolNames.NamesAreInjective | src/chat_ui/mcp_tools.py:55-56 | for such ids the name determines server and tool |
| ToolNames.UncleanIdsCollide | src/chat_ui/mcp_tools.py:55-56 | every other id has a tool name that another server can also produce |
| ToolNames.CatalogFromListedTools | src/chat_ui/mcp_tools.py:143-168 | the catalog and its targets are those of the first offer of each name |
| CatalogMeaning.CatalogDoes | src/chat_ui/mcp_tools.py:143-168 | the catalog lists the named tools of the servers one after another, each name once and from the first tool that has it, with name, description and schema spelled out, and the name leads to that tool's server and own name |
| ToolNames.CatalogIsExact | src/chat_ui/mcp_tools.py:143-168 | with clean ids every named tool is in the catalog and its target is its own server and tool |
| ChatTools.UserSession.OnMcpConnect | src/chat_ui/app.py:98-117 | registers the listed tools, prefixed for gateway connections, under the connection's place in the dictionary |
| ChatTools.UserSession.OnMcpDisconnect | src/chat_ui/app.py:120-128 | forgets the connection's tools and server |
| ChatTools.ReplayTracks | src/chat_ui/app.py:98-128 | after any run of events the session holds, per connection, exactly what its last listing registers |
| ChatTools.CollectOpenAiTools | src/chat_ui/mcp_tools.py:30-43 | the defaults followed by the first tool of each further name, in dictionary order |
| ChatTools.PrefixToolsForGateway | src/chat_ui/mcp_tools.py:125-140 | named tools are prefixed and described, unnamed ones dropped |
| ChatTools.AdvertisedToolsDispatch | src/chat_ui/app.py:131-151 | over every run each advertised name is unique and dispatches to the connection whose schema was advertised, under a name it listed, iff that connection has a name |
| ChatTools.UnknownIffNotOffered | src/chat_ui/app.py:139-144 | a call is reported unknown iff the name is not advertised, or only by the connection with the empty name |
| OfferMeaning.OfferDoes | src/chat_ui/app.py:98-151 | after any run of connects and disconnects the offer holds, the longest-open connection first, each listed tool whose name none before it has, with its name, description and schema spelled out; a call of it goes to its connection under its listed name, unless that connection has no name |
| ToolFacts.MergeAssistantWithToolFacts | src/chat_ui/mcp_tools.py:92-115 | the loop collects the distinct stripped facts and appends the missing ones |
| ToolFacts.MergeContainsEveryFact | src/chat_ui/mcp_tools.py:92-115 | every collected fact occurs in the merged reply |
| FactMeaning.MergeDoes | src/chat_ui/mcp_tools.py:92-115 | appended are, in order of the payloads and a payload's error before its URLs, exactly the stripped texts that are not blank, not in the reply and not reported earlier, one a line below the right-stripped reply |
| ToolFacts.MergeKeepsReply | src/chat_ui/mcp_tools.py:112-115 | the right-stripped reply is a prefix; the reply is unchanged iff no fact was missing |
| ToolFacts.MergeIsIdempotent | src/chat_ui/mcp_tools.py:92-115 | merging the same payloads again changes nothing |
| ToolFacts.RstripKeepsFacts | src/chat_ui/mcp_tools.py:112-115 | right-stripping cannot destroy an occurrence of a stripped fact |
| TokenStores.MemoryTokenStore.Upsert | src/chat_ui/token_manager.py:49-52 | the tokens are filed under their subject and a non-empty session under it too |
| TokenStores.MemoryTokenStore.BindSession | src/chat_ui/token_manager.py:60-61 | the session is filed under the subject; no tokens change |
| TokenStores.MemoryTokenStore.DeleteBySession | src/chat_ui/token_manager.py:63-66 | the session and its subject's tokens are popped, if any |
| TokenStores.MemReadsBack | src/chat_ui/token_manager.py:49-66 | what memory resolves for every session after a save, a bind and a delete |
| TokenStores.PostgresTokenStore.Upsert | src/chat_ui/token_manager.py:80-106 | COALESCE keeps a stored session; a session of another row fails and changes nothing; sessions stay unique |
| TokenStores.PostgresTokenStore.GetBySession | src/chat_ui/token_manager.py:108-131 | the tokens of the row with this session, and none iff there is no such row |
| TokenStores.PostgresTokenStore.BindSession | src/chat_ui/token_manager.py:133-140 | the subject's row, if any, takes the session; a session of another row fails and changes nothing |
| TokenStores.PostgresTokenStore.DeleteBySession | src/chat_ui/token_manager.py:142-145 | keeps exactly the rows with another session or none, as they are; sessions stay unique and this one resolves no more |
| TokenStores.PgUpsertReadsBack | src/chat_ui/token_manager.py:80-131 | after a save the session resolves to the saved tokens, the subject's earlier session to none, every other as before |
| TokenStores.PgBindReadsBack | src/chat_ui/token_manager.py:108-140 | after a bind the session resolves to the subject's tokens, the subject's earlier session to none, every other as before |
| TokenStores.PgDeleteReadsBack | src/chat_ui/token_manager.py:108-145 | after a delete the session resolves to none and every other as before |
| StoreMeaning.PgBindDoes | src/chat_ui/token_manager.py:133-140 | binding changes only the session of the subject's row, and fails iff another row has it |
| StoreMeaning.SavingUnboundReadsBack | src/chat_ui/token_manager.py:49-106 | a save without a session changes, in both stores, only what the subject's own sessions resolve to |
| TokenStores.MemoryResolvesWhatPostgresDoes | src/chat_ui/token_manager.py:44-145 | along any proper run every session Postgres resolves is resolved by memory to the same tokens |
| TokenStores.StepSimulates | src/chat_ui/token_manager.py:44-145 | one proper operation keeps memory a superset of Postgres and never violates the unique session |
| TokenStores.DeleteKeepsSimulationIff | src/chat_ui/token_manager.py:63-66 | a delete keeps it iff Postgres resolves the session or memory's subject has no row |
| TokenStores.StepAgreesIff | src/chat_ui/token_manager.py:44-145 | a proper call keeps the two stores resolving every session alike iff its guard holds before the call |
| TokenStores.StoresAgreeIff | src/chat_ui/token_manager.py:44-145 | along any run of proper calls the stores resolve every session alike after every call iff every call meets its guard |
| TokenStores.RebindingSeparatesTheStores | src/chat_ui/token_manager.py:60-61 | after a rebind memory still resolves the old session and Postgres does not |
| TokenManager.KeycloakTokenManager.GetAccessToken | src/chat_ui/token_manager.py:190-235 | the store and the result of every branch |
| TokenManager.AccessTokenDoes | src/chat_ui/token_manager.py:190-235 | every case spelled out: a token with more than thirty seconds left is handed out unless forced; without refresh token or URL there is none; a rejected grant forgets the session, a granted one stores and hands out the new tokens, any other answer changes nothing |
| TokenManager.TokenForSessionDoes | src/chat_ui/gateway_mcp_connect.py:104-120 | the first try decides unless it found no token; then the subject, if there is one, is bound and the second try decides |
| TokenManager.KeycloakTokenManager.SaveResponse | src/chat_ui/token_manager.py:178-185 | stores the tokens read from a response, if any |
| TokenManager.KeycloakTokenManager.BindSession | src/chat_ui/token_manager.py:187-188 | rebinds in the store |
| TokenManager.StoreChangesOnlyOnRefresh | src/chat_ui/token_manager.py:190-235 | the store changes only on a granted or rejected refresh; a re-login is required iff a refresh was rejected; stored tokens are handed out only while usable |
| TokenManager.RejectedSessionStaysOut | src/chat_ui/gateway_mcp_connect.py:104-120 | after a rejection no run of calls that saves nothing for the subject, and no bind and retry, yields a token again |
| TokenManager.SavingRevives | src/chat_ui/token_manager.py:178-185 | saving tokens for the subject and the session makes the session resolve again |
| TokenManager.CallKeepsDead | src/chat_ui/token_manager.py:178-235 | each such call leaves the subject without tokens and the session without another subject |
| RefreshRaces.UndisturbedCallIsAtomic | src/chat_ui/token_manager.py:190-235 | the steps of one call between awaits, with nothing in between, add up to the call as one step |
| RefreshRaces.UndisturbedRetryIsAtomic | src/chat_ui/gateway_mcp_connect.py:104-120 | with nothing in between, lookup, refresh, bind and second try add up to the bind and retry as one step |
| RefreshRaces.RunTouches | src/chat_ui/token_manager.py:178-235 | in every interleaving a subject's tokens are those of the last save or delete that touched them |
| RefreshRaces.DiscardLosesIff | src/chat_ui/token_manager.py:213-224 | in every interleaving the delete of a rejected call takes tokens that were not rejected iff the session resolves and the last save since the lookup was of others; the subject is then left without tokens |
| RefreshRaces.ExclusiveRunsLoseNothing | src/chat_ui/token_manager.py:190-235 | if refreshes and logins of one subject never overlap, no call deletes tokens that another one saved |
| RefreshRaces.OverlapLosesTokens | src/chat_ui/token_manager.py:213-234 | from any state with refreshable tokens two overlapping calls can leave the session without tokens although new ones were granted and saved |
| RefreshRaces.RejectedSessionStaysOut | src/chat_ui/gateway_mcp_connect.py:104-120 | after a rejected call's delete no interleaving of calls, binds and second tries that writes nothing for the subject lets the session resolve, and no call for it ends with a token |
| TokenCache.TokenCache.Get | gateway/src/mcp_gateway/cache.py:23-29 | the entries and the answer of a lookup at one clock read |
| TokenCache.TokenCache.Put | gateway/src/mcp_gateway/cache.py:31-44 | the entries after a put with its two clock reads |
| TokenCache.GetAnswersByHistory | gateway/src/mcp_gateway/cache.py:23-44 | with a clock that runs forward every get answers by the last effective put for its key, as if nothing were dropped |
| StoreMeaning.CacheGetDoes | gateway/src/mcp_gateway/cache.py:23-29 | a lookup answers with the entry's token until the entry runs out and drops only an entry that ran out |
| StoreMeaning.PutThenGet | gateway/src/mcp_gateway/cache.py:23-44 | after a put of a token with more than five seconds left the key answers with it until the maximal lifetime or the remaining one less five seconds has passed; every other lookup answers as without the put |
| StoreMeaning.NothingIsCached | gateway/src/mcp_gateway/cache.py:38-41 | without a positive maximal lifetime nothing is stored |
| TokenCache.AnswersAreFresh | gateway/src/mcp_gateway/cache.py:23-44 | what a get returns was put last for that key, is younger than the maximal lifetime, and is valid for the issuer if the put's reads were within the margin |
| TokenCache.MarginIsExact | gateway/src/mcp_gateway/cache.py:31-44 | what a put stores is never answered past the issuer's expiry iff its clock reads differ by at most five seconds or by what the maximal lifetime leaves over |
| TokenCache.MaterialIdentifies | gateway/src/mcp_gateway/cache.py:19-21 | whatever the scopes hold, the key material determines token, server and joined scopes |
| TokenCache.MaterialIsInjective | gateway/src/mcp_gateway/cache.py:19-21 | the key material determines token, server and scopes under the stated conditions |
| TokenCache.EmptyScopeListCollides | gateway/src/mcp_gateway/app.py:39-46 | without the check for scopes two lists would share a key |
| Text.SplitUndoesJoin | gateway/src/mcp_gateway/cache.py:20 | joining parts by a character that none holds can be undone |
| Registry.ListEnabledServers | gateway/src/mcp_gateway/registry.py:50-75 | the listing of every enabled entry whose roles the caller has |
| Registry.ShownIffPermitted | gateway/src/mcp_gateway/policy.py:9-15 | a caller is shown a tool iff lookup and policy would let the call through |
| RegistryMeaning.ListingDoes | gateway/src/mcp_gateway/registry.py:50-75 | the listable entries in file order, each under its id, with its display name or else its id, its own tools, and its address below the base URL without trailing slashes |
| RegistryMeaning.LookupDoes | gateway/src/mcp_gateway/registry.py:43-47 | a lookup finds the enabled server under the id and nothing else; a value that is no mapping crashes |
| RegistryMeaning.PolicyDoes | gateway/src/mcp_gateway/policy.py:9-15 | a call passes iff the tool is allowed and every required role is there; which failure it is otherwise |
| Registry.MoreRolesShowMore | gateway/src/mcp_gateway/registry.py:50-75 | more roles never hide a tool |
| GatewayPipeline.EveryHandoffIsEarned | gateway/src/mcp_gateway/app.py:128-177 | in every interleaving a token given to the lister or caller was exchanged for that request's own token and accepted for that server's resource, and calls are permitted |
| Handoffs.RequestIsServedOnce | gateway/src/mcp_gateway/app.py:128-177 | in every interleaving a request that is let through is served once by the time it leaves, or its exchange was refused, empty or not verified, and then never |
| Handoffs.ExchangeDoes | gateway/src/mcp_gateway/app.py:50-83 | an exchange hands over exactly the delivered token, once, iff it was issued, not empty and verified, and closes the request |
| Handoffs.RouteDoes | gateway/src/mcp_gateway/app.py:61-63 | a request that is let through gets the unexpired, non-empty token under its key, or else waits for an exchange |
| Handoffs.RefusedDoes | gateway/src/mcp_gateway/app.py:128-177 | a request that is not let through gets nothing and is closed |
| Handoffs.RefusalDoes | gateway/src/mcp_gateway/app.py:31-48 | the error with which a request is turned away, the first reason first: server, policy, mode, what the exchange needs |
| Handoffs.ArriveDoes | gateway/src/mcp_gateway/app.py:128-140 | an arriving request is given nothing |
| Handoffs.ExchangeCaches | gateway/src/mcp_gateway/app.py:64-83 | what the cache holds after an exchange, with its deadline |
| GatewayPipeline.EveryHandedTokenIsUnexpired | gateway/src/mcp_gateway/app.py:61-83 | in every interleaving of timely exchanges every token given to the lister or caller, fresh or cached, is unexpired by the issuer's clock |
| GatewayPipeline.ServedUnexpiredIffTimely | gateway/src/mcp_gateway/cache.py:31-44 | a granted token can be handed over only before its expiry iff its exchange was timely: a bound on its delays |
| GatewayPipeline.StepKeepsInvariant | gateway/src/mcp_gateway/app.py:50-83 | every step keeps each cache entry traceable to the exchange that filled it |
| GatewayPipeline.KeyIdentifies | gateway/src/mcp_gateway/cache.py:19-21 | requests that share a cache key share token and server, whatever their scopes |
| GatewayPipeline.HitIsEarned | gateway/src/mcp_gateway/app.py:61-63 | a cached token was earned by the same principal for the same server |
| GatewayPipeline.HandOverKeeps | gateway/src/mcp_gateway/mcp_http.py:59-82 | dispatch re-checks the policy before a call reaches the caller |
| ReleaseLog.ValidateLog | scripts/validate_okf.py:153-201 | reports exactly the specified errors, and none iff the headings are in the accepted language |
| ReleaseLog.ValidateHeadings | scripts/validate_okf.py:158-201 | the same from the heading list on |
| ReleaseLog.NoErrorsIffInLanguage | scripts/validate_okf.py:153-201 | no error iff an optional pending heading, then parseable versions newest first, then dates newest first |
| ReleaseLog.CheckVersions | scripts/validate_okf.py:167-188 | stops iff a tag other than the pending one does not parse; no error iff the tags are an optional pending heading, then parseable versions newest first |
| VersionOrder.TagsCompareByNumbers | scripts/validate_okf.py:53-61 | two tags of dotted decimal numerals, with any v and any hyphen or plus suffixes, are in order iff their lists of numbers are: equal, a prefix, or smaller at the first difference |
| VersionOrder.NumberOfDecimal | scripts/validate_okf.py:60 | reading the decimal numeral of n gives n, for every n |
| VersionOrder.SegmentsFailIff | scripts/validate_okf.py:56-60 | a tag does not parse iff a segment's numeric part is empty, too long or holds something other than a digit |
| VersionOrder.NumericPartStops | scripts/validate_okf.py:57 | a segment's numeric part ends at its first hyphen or plus sign |
| VersionOrder.DatesCompareByNumbers | scripts/validate_okf.py:190-193 | two dates are in order iff their year, month and day are |
| VersionOrder.DatesAreDates | scripts/validate_okf.py:18 | every such date is a date heading |
| LogMeaning.DateHeadingReads | scripts/validate_okf.py:18 | every date heading is four digits, two digits and two digits with hyphens between |
| LogMeaning.DateHeadingHolds | scripts/validate_okf.py:18 | and everything of that form is a date heading |
| LogMeaning.HeadingsDo | scripts/validate_okf.py:154 | the headings are what follows `## ` in the lines of the text that start with it and go on, in order |
| LogMeaning.SeveralPending | scripts/validate_okf.py:169-173 | the complaint about several pending headings is made iff two headings are pending |
| LogMeaning.LatePending | scripts/validate_okf.py:174-177 | the complaint about its place is made iff the first version heading is another one and a pending one stands below |
| LogMeaning.BadVersionComplaint | scripts/validate_okf.py:179-184 | exactly the first release heading that does not parse is named |
| LogMeaning.VersionOrderComplaint | scripts/validate_okf.py:186-188 | if all release headings parse, the order is complained about iff a newer one stands below an older one; otherwise never |
| LogMeaning.DateComplaints | scripts/validate_okf.py:190-201 | the same for dates, and for a version below a date |
| LogMeaning.ComplaintsInOrder | scripts/validate_okf.py:167-201 | no complaint is made twice, and they come in a fixed order |
| ReleaseLog.PositionsShowMixing | scripts/validate_okf.py:195-201 | comparing the last version with the first date finds any version below a date |
| ReleaseLog.PendingIsNoVersion | scripts/validate_okf.py:49-61 | the pending heading is neither a date nor a parseable version |
| ReleaseLog.NotOlderIsTotal | scripts/validate_okf.py:186 | the order on version tuples is a total preorder |

## Left out

- HTTP, asyncpg, Keycloak, Langflow, OpenAI and MCP transports: replaced by their possible outcomes.
- JWT signature checks, claim parsing, JSON parsing and the URL pattern over tool results: their results are parameters.
- Embeddings, vector search and its ranking: computed by pgvector.
- Connection pools, database errors other than a unique violation, surrogate row ids and `ingested_at`.
- Tracing, the Chainlit user interface, the command line scripts and deployment files.
- Task cancellation in the middle of a connect: every started connect runs to one of its own ends.
- `resolve_ingest_paths` and `host_source`: the resolved files and their host paths are given.
- `load_registry` and the choice of a gateway's server list: the registry is given.
- The frontmatter, actor, link and pull request checks: independent branches with no shared state.
- McpLifecycle.StepKeepsInvariant: the lifecycle is modelled on values, not on the mutable Chainlit session, because its steps interleave.
- GatewayPipeline.StepKeepsInvariant: for the same reason the shared cache is a value here; the cache object is `TokenCache.TokenCache`.
- ReleaseLog.ValidateLog: errors carry no message text; decimal digits are those of Unicode 15.0, the version of Python 3.12.
- TokenManager.KeycloakTokenManager.GetAccessToken: one step here; its interleavings are the steps of `RefreshRaces`.
- TokenManager.RejectedSessionStaysOut: covers calls made one after another; `RefreshRaces.RejectedSessionStaysOut` covers interleaved ones.
- RefreshRaces.OverlapLosesTokens: whether the authorization server rotates refresh tokens is its choice; its answers are parameters.
