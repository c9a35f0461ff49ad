# Verified model of the issue tracker's client state

A Dafny model of the client-side state of an issue tracker that keeps a replicated cache in step with its
server, and of the self-contained algorithms around it. Every file is one module.

| file | models |
|---|---|
| `Issues.dfy`, `BucketCache.dfy` | issues, partial issues, the status-bucketed issue list and its helpers |
| `BucketRefinement.dfy`, `BucketLaws.dfy` | the buckets refine a plain map; echoes, totals and order on the screen |
| `Pagination.dfy` | first pages and "load more" |
| `QueryCache.dfy`, `WsUpdaters.dfy`, `IssueMutations.dfy`, `Comments.dfy` | the query cache, events written into it, optimistic mutations with rollback, comment deletion |
| `WsClient.dfy`, `Replication.dfy`, `RealtimeSync.dfy` | the WebSocket client and the replication protocol as a step system |
| `ResyncConvergence.dfy`, `Registration.dfy`, `ListSync.dfy` | when cached details and list rows are right, over all runs of it |
| `TaskMessages.dfy` | the live message list of a task |
| `StreamingMarkdown.dfy`, `MarkdownStructure.dfy` | splitting streamed markdown line by line, and the same block by block |
| `Linkify.dfy`, `Text.dfy` | turning raw URLs into links; the string functions used |
| `TailLog.dfy` | the reverse scan that finds the last lines of a log file |
| `Analytics.dfy`, `WorkspaceStorage.dfy`, `SearchCommand.dfy` | three small asynchronous machines |
| `RuntimeUsage.dfy`, `Inbox.dfy`, `Grouping.dfy`, `Filtering.dfy`, `Sorting.dfy` | usage aggregation, inbox deduplication, and the stable sort, filter and `Map` order they use |

Code that updates state in place is a class or a method with loops, specified by a function on values; what
the code promises is then proved about that function. Code made of expressions is functions and lemmas.

## Findings

Properties that do not hold in general are stated with the exact condition under which they do, and shown to
fail at concrete states or inputs.

* **A connection need not catch up with what it missed.** A first authentication invalidates nothing
  (`ws-client.ts:108`), and the server acknowledges before it registers the connection
  (`server/internal/realtime/hub.go:686`, `:711`). Whatever the server does while a connection is set up, the
  cached details end up right exactly if the client had been connected before (or held no unmarked detail) and
  refetched nothing between authentication and registration: `Registration.AuthenticationExact`. Failing runs:
  `Registration.FirstSessionMisses`, `Registration.EarlyRefetchMisses`. Otherwise every re-authentication
  converges, in whichever order acknowledgement and registration come, up to the next two points:
  `ResyncConvergence.ResyncConverges`.
* **Changes without an event stay unseen.** Deleting an issue clears the parent of its sub-issues
  (`server/migrations/001_init.up.sql:65`) and announces the deletion only
  (`server/internal/handler/issue.go:1250-1259`); `onIssueDeleted` leaves the sub-issues' details unmarked with the
  dead parent: `ResyncConvergence.DeletedParentStays`, and it lasts, `ResyncConvergence.StaleUntilRepaired`.
  Resetting a stuck issue to `todo` (`server/internal/service/task.go:717`) sends no issue event, and a change of
  `reactions` marks another key (`use-realtime-sync.ts:252-260`). At the moment of such a change the details stay
  right exactly if no unmarked one is really changed (`ResyncConvergence.SilentChangeExact`,
  `ResyncConvergence.DeletionExact`); later, exactly if no unmarked detail has a field that was changed silently and
  neither announced nor refetched since, its own deletion aside (`ResyncConvergence.SilenceExact`).
* **A partial payload can freeze a stale copy.** An `issue:updated` event that reaches a detail marked for
  refetch leaves a right state for every possible server copy exactly if the cache write keeps the mark, or the
  issue's deletion is queued, or the fields known, carried and rightly queued are all fields:
  `ResyncConvergence.DeliveryExact`, `ResyncConvergence.MarkedUpdateExact`; a failing run is
  `Registration.PartialPayloadFreezes`. No broadcast carries all fields: `reactions` is never set
  (`server/internal/handler/issue.go:43`, `:47-69`), and `server/internal/service/task.go:1034` also omits
  `project_id`. For arbitrary payloads, convergence holds field by field: `RealtimeSync.LearntFieldsConverge`.
  Whether a manual write clears the mark is up to the query library, so it is a parameter of the model
  (`resetsOnWrite`). The list has one mark for all its rows: if writes clear marks, an event of any issue shows
  another row's missed change as current, `ListSync.UnrelatedEventFreezes`.
* **"Load more" can list an issue twice.** A move appends without looking at the target column
  (`cache-helpers.ts:95-98`). An answer read after an issue has moved files it a second time, and the event of
  the move then lists it twice in one column: `Pagination.LoadFilesTwice`, `Pagination.LoadThenMoveDuplicates`.
  `Pagination.LoadConsistentIff` and `Pagination.UpdateDistinctIff` give the exact conditions.
* **A stale creation event breaks the buckets.** A list fetched after an issue has changed status, receiving the
  issue's older creation and move events, shows it twice in one column: `BucketLaws.StaleCreationDuplicates`.
  `BucketRefinement.AddConsistentIff` gives the exact condition.
* **A second `connect()` outlives `disconnect()`.** `connect()` does not look at what is there
  (`ws-client.ts:49-64`). It is undone by a later `disconnect()` exactly if it was made on an unconnected client:
  `WsClient.ConnectUndoableExact`. The one caller (`realtime/provider.tsx:101`) connects each client once.
* **The echo of a re-parenting** clears the mark on the new parent's child list, which does not show the issue
  yet, exactly if writes clear marks and the client still knows the issue: `WsUpdaters.EchoReparent`.
* **An opening `$$` line can take a finished block back.** All blocks but the last survive a continuation of
  the text unless the last line opens display math right after a paragraph and the continuation turns that line
  into something else: `StreamingMarkdown.StabilityExact`, in both directions;
  `StreamingMarkdown.RetractionExample` is an input.
* **Archiving an inbox item** removes exactly its group's entry if and only if every active item of the group
  shares its non-empty issue id or is the item itself: `Inbox.ArchiveRemovesGroup`, with
  `Inbox.EmptyIssueIdStays` and `Inbox.IssueIdAsItemIdStays` as inputs.
* **The deletion of an issue** takes exactly its inbox entry away if and only if no active item without an issue
  has the issue's id as its own: `Inbox.DeletionRemovesGroup`.
* **Closing the search dialog stops nothing.** An answer is stored after the list was cleared unless nothing was
  under way at the close: `SearchCommand.ClosedStaysEmptyExact`.
* **A failed delete does not bring the issue's cached detail back**; `IssueMutations.FailAllExact` says exactly
  which details a failed stack of mutations loses.
* The comment at `packages/core/analytics/index.ts:37-40` says the first pending pageview is kept; the code
  keeps the latest, and so does the model. The reconnect log line at `use-realtime-sync.ts:501` says all data
  is refetched; an issue's timeline, reactions and subscribers are not under the invalidated prefix
  (`queries.ts:20-23`) and are marked only by the callbacks of a mounted page (`use-issue-timeline.ts:54`):
  `WsClient.ReconnectMarks`.

## Model

| member | source | states |
|---|---|---|
| Issues.RepairsIffComplete | packages/core/issues/ws-updaters.ts:50-52 | merging an event payload into an arbitrarily stale copy yields the up-to-date issue for every up-to-date issue reflecting it, if and only if the payload has all columns |
| BucketRefinement.LookupExact | packages/core/issues/cache-helpers.ts:27-37 | in a consistent list the lookup finds precisely the non-cancelled issues held, each in the bucket of its own status |
| BucketRefinement.AddConsistentIff | packages/core/issues/cache-helpers.ts:40-50 | adding keeps ids in one bucket, statuses and totals consistent if and only if no other bucket holds the id (or the target already has it) |
| BucketRefinement.AddRefines | packages/core/issues/cache-helpers.ts:40-50 | on what is visible, adding is one insertion into a plain map that never overwrites |
| BucketRefinement.RemoveRefines | packages/core/issues/cache-helpers.ts:53-64 | removal keeps consistency and removes exactly the id from the plain map |
| BucketRefinement.PatchRefines | packages/core/issues/cache-helpers.ts:71-100 | a patch keeps consistency and is one overwrite in the plain map, or a removal when the issue becomes cancelled |
| BucketRefinement.PatchShows | packages/core/issues/cache-helpers.ts:71-100 | the list then shows, in the column of its new status, the issue with exactly the payload's fields holding the payload's values, or no longer shows it if cancelled, and all other issues as before |
| BucketRefinement.BatchUpdateRefines | packages/core/issues/mutations.ts:241-246 | a batch update equals one simultaneous patch of the visible issues listed; order and repetition of ids play no part |
| BucketRefinement.BatchDeleteRefines | packages/core/issues/mutations.ts:273-278 | a batch deletion equals removing the set of ids |
| BucketRefinement.RunRefines | packages/core/issues/cache-helpers.ts:27-100 | over every run of creations, patches, removals and batches the list stays consistent and shows what the same run makes of the plain map |
| BucketLaws.PatchEcho | packages/core/issues/cache-helpers.ts:71-100 | applying a patch twice equals applying it once, as whole caches, moves to cancelled included |
| BucketLaws.CreateEcho | packages/core/issues/cache-helpers.ts:40-50 | the creator's own insertion and its broadcast together insert once |
| BucketLaws.DeleteEcho | packages/core/issues/cache-helpers.ts:53-64 | the deleter's own removal and its broadcast together remove once |
| BucketLaws.PatchConservesTotal | packages/core/issues/cache-helpers.ts:89-99 | no patch changes the sum of all bucket totals |
| BucketLaws.RemoveTakesOne | packages/core/issues/cache-helpers.ts:60-63 | a removal lowers the sum by one exactly when the issue was visible |
| BucketLaws.AddBringsOne | packages/core/issues/cache-helpers.ts:44-49 | an addition raises the sum by one unless the bucket had the issue |
| BucketLaws.RemoveKeepsOrder | packages/core/issues/cache-helpers.ts:61 | on the flattened list a removal keeps all other issues in their order |
| BucketLaws.EditKeepsOrder | packages/core/issues/cache-helpers.ts:81-87 | an edit within a column changes one position of the flattened list and moves nothing |
| BucketLaws.MoveIsRemoveThenAdd | packages/core/issues/cache-helpers.ts:89-99 | a change of column equals a removal followed by a creation |
| BucketLaws.CreatedLast | packages/core/issues/cache-helpers.ts:44-49 | a created issue becomes the last of its column |
| BucketLaws.MovedLast | packages/core/issues/cache-helpers.ts:89-99 | a moved issue, carrying the payload's values, becomes the last of its new column; the old one loses only it |
| BucketLaws.FlattenIssueBuckets | packages/core/issues/queries.ts:39-46 | the loop returns the columns' issues in board order |
| BucketLaws.FlattenedColumns | packages/core/issues/queries.ts:39-46 | that order is backlog, todo, in progress, in review, done, blocked |
| BucketLaws.FlattenedIsView | packages/core/issues/queries.ts:39-46 | the flattened list shows each visible issue exactly once and nothing else |
| BucketLaws.StaleCreationInconsistent | packages/core/issues/ws-updaters.ts:17-19 | an older creation event applied to a newer list puts one id into two buckets |
| BucketLaws.StaleCreationDuplicates | packages/core/issues/ws-updaters.ts:46-48 | followed by the older move event it lists the issue twice in one column |
| Pagination.FetchFirstPages | packages/core/issues/queries.ts:48-60 | the loop files each status' response under that status, for all statuses but cancelled |
| Pagination.FirstPagesConsistent | packages/core/issues/queries.ts:48-60 | first pages of a server that files issues under their own status form a consistent list |
| Pagination.LoadMoreHook.Begin | packages/core/issues/mutations.ts:63-71 | asks the server exactly when the last render saw the hook idle and more available, from the number of issues it saw |
| Pagination.LoadMoreHook.Finish | packages/core/issues/mutations.ts:79-88 | appends the unseen issues of the answer to whatever the cache holds by then |
| Pagination.PageOfFifty | packages/core/issues/queries.ts:48-60 | a page is the next fifty issues of the server's list, or what is left |
| Pagination.LoadMoreProgress | packages/core/issues/mutations.ts:65-70 | a load keeps a prefix of the server's list, strictly lowers total minus loaded, and is offered exactly while issues are missing |
| Pagination.LoadTimesExact | packages/core/issues/mutations.ts:69-88 | after n loads the column holds exactly the first 50(n+1) issues of the server's list |
| Pagination.LoadConsistentIff | packages/core/issues/mutations.ts:79-88 | an answer keeps the whole list consistent if and only if what it adds belongs to the column, is in no other one, is distinct and is covered by the new total |
| Pagination.LiveRefines | packages/core/issues/mutations.ts:79-88 | over every run of loads, creations, patches, removals and batches under the exact arrival conditions, the list stays consistent and shows what the run makes of the plain map, loads being insertions that never overwrite |
| Pagination.UpdateDistinctIff | packages/core/issues/cache-helpers.ts:89-99 | a patch keeps all columns free of duplicates if and only if it does not move the issue onto a copy of itself |
| Pagination.NoDuplicates | packages/core/issues/mutations.ts:82-86 | however loads, creations, deletions, edits, moves and batches interleave, fresh or stale, no id is listed twice in a column as long as no move collides |
| Pagination.LoadFilesTwice | packages/core/issues/mutations.ts:79-88 | an answer read after an issue has moved puts it into two columns |
| Pagination.LoadThenMoveDuplicates | packages/core/issues/cache-helpers.ts:95-98 | the event of the move, applied then, lists it twice in one column |
| WsUpdaters.OnIssueCreated | packages/core/issues/ws-updaters.ts:12-25 | the handler's whole effect on the query cache |
| WsUpdaters.OnIssueUpdated | packages/core/issues/ws-updaters.ts:27-73 | the handler's whole effect on the query cache |
| WsUpdaters.OnIssueDeleted | packages/core/issues/ws-updaters.ts:75-97 | the handler's whole effect on the query cache, reactions and subscribers included |
| WsUpdaters.UpdatedFrame | packages/core/issues/ws-updaters.ts:46-63 | an update event changes no other issue's data in details or child lists |
| WsUpdaters.UpdatedList | packages/core/issues/ws-updaters.ts:46-48 | an update event is one patch of the plain map of visible issues |
| WsUpdaters.UpdatedListShows | packages/core/issues/ws-updaters.ts:46-48 | the visible issue then holds the payload's values in the payload's fields and its own in the others |
| WsUpdaters.UpdatedExact | packages/core/issues/ws-updaters.ts:49-67 | the detail takes exactly the payload's values, so does the row in the child list of an unchanged parent; other details and rows stay |
| WsUpdaters.UpdatedMarks | packages/core/issues/ws-updaters.ts:49-72 | my-lists are marked, child progress exactly when status or parent of an issue with a parent may have changed, nothing else |
| WsUpdaters.ParentOfExact | packages/core/issues/ws-updaters.ts:35-40 | the parent assumed is the cached detail's, or else that of the visible row |
| WsUpdaters.ReparentInvalidatesBoth | packages/core/issues/ws-updaters.ts:54-67 | when the parent changes, the child lists of the old and of the new parent are marked for refetch |
| WsUpdaters.CreatedExact | packages/core/issues/ws-updaters.ts:12-25 | a creation event is one insertion into the visible issues; it marks my-lists and what the parent shows, and nothing else |
| WsUpdaters.DeletedList | packages/core/issues/ws-updaters.ts:84-86 | a deletion event removes exactly the issue from the visible issues |
| WsUpdaters.DeletedExact | packages/core/issues/ws-updaters.ts:87-92 | no entry is left under the issue's own keys and the other issues' entries stay |
| WsUpdaters.DeletedMarks | packages/core/issues/ws-updaters.ts:87-96 | my-lists and what the parent shows are marked, and nothing else |
| WsUpdaters.EchoIdempotent | packages/core/issues/ws-updaters.ts:46-52 | a second copy of an update event changes neither list nor details |
| WsUpdaters.EchoChildren | packages/core/issues/ws-updaters.ts:55-63 | nor any child list, when the update leaves the parent as it is |
| WsUpdaters.EchoReparent | packages/core/issues/ws-updaters.ts:54-67 | the echo of a re-parenting leaves all child lists alone but the new parent's, whose mark for refetch survives if and only if writes keep marks or the issue is no longer known |
| IssueMutations.UpdateIssueOnMutate | packages/core/issues/mutations.ts:131-165 | snapshot and optimistic write of list, detail and the parent's child list |
| IssueMutations.UpdateShows | packages/core/issues/mutations.ts:151-153 | the optimistic list shows the issue with the payload's values, in the column of its new status |
| IssueMutations.UpdateWrites | packages/core/issues/mutations.ts:154-163 | the detail and the parent's row of the issue take the payload's values, and nothing else changes |
| IssueMutations.UpdateThenEcho | packages/core/issues/mutations.ts:151-163 | an update event after the optimistic write of the same patch leaves list and detail data as the event alone would |
| IssueMutations.UpdateIssueOnError | packages/core/issues/mutations.ts:166-176 | restores what the snapshot holds |
| IssueMutations.UpdateIssueOnSettled | packages/core/issues/mutations.ts:177-195 | marks detail, list and both parents' child lists |
| IssueMutations.SettledExact | packages/core/issues/mutations.ts:177-195 | settling marks exactly the list, the detail, both parents' child lists and progress, and changes no data |
| IssueMutations.DeleteIssueOnMutate | packages/core/issues/mutations.ts:204-213 | snapshot of the list and the deleted issue's parent; removal from list and details |
| IssueMutations.DeleteShows | packages/core/issues/mutations.ts:204-213 | the optimistic deletion takes exactly the issue out of the visible list and the details |
| IssueMutations.BatchUpdateOnMutate | packages/core/issues/mutations.ts:238-248 | the loop is the fold of single patches, repeats included |
| IssueMutations.BatchUpdateShows | packages/core/issues/mutations.ts:241-246 | each listed visible issue holds the payload's values or is cancelled away, every other row stays |
| IssueMutations.BatchDeleteOnMutate | packages/core/issues/mutations.ts:263-280 | the loops remove all ids and collect exactly the parents of the listed issues |
| IssueMutations.BatchDeleteShows | packages/core/issues/mutations.ts:273-278 | exactly the listed issues leave the visible list |
| IssueMutations.ListOnSettled | packages/core/issues/mutations.ts:217-223 | settling a deletion or batch marks the list, exactly the given parents' child lists, and progress if there are any |
| IssueMutations.FailAllExact | packages/core/issues/mutations.ts:131-283 | a stack of updates, deletes and batches failing in reverse order restores list and child lists exactly, present or absent, and loses exactly the details whose first update-or-delete was a delete |
| IssueMutations.UpdatesRollBackExactly | packages/core/issues/mutations.ts:131-176 | any stack of updates failing in reverse order restores list, details and child lists exactly |
| IssueMutations.SettledIsMarked | packages/core/issues/mutations.ts:177-195 | every entry an update wrote is marked for refetch once it settles |
| Comments.CollectCascade | packages/core/issues/mutations.ts:376-389 | terminates on any parent links, cycles included, with exactly the ids reachable from the deleted comment |
| Comments.DeleteCommentOnMutate | packages/core/issues/mutations.ts:372-396 | the cached timeline keeps exactly the entries outside that set |
| Comments.RollbackRestores | packages/core/issues/mutations.ts:397-401 | a failed deletion leaves the timeline as it was |
| Comments.NoOrphans | packages/core/issues/mutations.ts:391-394 | no surviving entry has a removed parent |
| WsClient.WSClient.OnOpen | packages/core/api/ws-client.ts:66-75 | opening authenticates in cookie mode only |
| WsClient.WSClient.OnMessage | packages/core/api/ws-client.ts:77-93 | an acknowledgement authenticates, any other message reaches the registered handler |
| WsClient.WSClient.OnAuthenticated | packages/core/api/ws-client.ts:106-118 | the reconnect callback runs exactly when the client has been connected before |
| WsClient.WSClient.OnReconnect | packages/core/realtime/use-realtime-sync.ts:500-518 | marks everything under the workspace's issue key and the other collections of the workspace, and the workspace list in any case |
| WsClient.ReconnectMarks | packages/core/realtime/use-realtime-sync.ts:500-518 | a reconnection changes no data; it marks list, my-lists, details, child lists, progress and the workspace's collections exactly if the workspace is known, the workspace list in any case, an issue's timeline, reactions and subscribers exactly if its page is mounted |
| WsClient.DeletedStaysGone | packages/core/issues/ws-updaters.ts:75-97 | after a deletion event no sequence of updates, deletions and creations of other issues brings the issue back into the details or the columns |
| WsClient.StopFinalExact | packages/core/api/ws-client.ts:120-136 | after disconnect no socket is ever open again without a connect, if and only if the client remembered every socket and timer under way |
| WsClient.GuardedTidy | packages/core/api/ws-client.ts:95-98 | over all runs that connect only an unconnected client: at most one socket or one scheduled reconnect, and always one of them until disconnect |
| WsClient.ConnectUndoableExact | packages/core/api/ws-client.ts:49-64 | a connect is undone by every later disconnect if and only if it was made on an unconnected client |
| Replication.DrainForm | packages/core/issues/ws-updaters.ts:50-52 | a queue of events acts on a copy as one merge, or as a removal |
| Replication.AnnouncedAbsorbed | packages/core/realtime/use-realtime-sync.ts:174-184 | after an announced change, replaying the queue on the server's own copy changes nothing but fields changed silently since |
| Replication.RewrittenAbsorbed | server/migrations/001_init.up.sql:65 | the same after changes of any issues that nobody is told about |
| Replication.DequeueAbsorbed | packages/core/api/ws-client.ts:77-89 | and after the head of the queue is gone |
| Replication.DeliveredLearns | packages/core/realtime/use-realtime-sync.ts:174-201 | handling the head of the queue, whatever it carries, keeps every known field right and makes the carried ones known unless they are out of date |
| Replication.QueueLost | packages/core/api/ws-client.ts:95-98 | losing the connection keeps right every known field that no lost event concerns |
| Replication.UncoveredDiverges | packages/core/issues/ws-updaters.ts:50-52 | a field neither known nor rightly queued can differ: there is another server telling the client exactly the same |
| RealtimeSync.LinksRefine | packages/core/api/ws-client.ts:49-136 | every run of sockets and timers that connects only an unconnected client is a run of the protocol's connection, phase by phase |
| RealtimeSync.StepInv | packages/core/realtime/use-realtime-sync.ts:174-201 | every step of server, channel, connection and cache, with any payload or no event at all, deletions with their effect on sub-issues included, keeps the protocol invariant |
| RealtimeSync.LearntFieldsConverge | packages/core/realtime/use-realtime-sync.ts:174-201 | in every reachable state, for any payloads, silent changes and drops, each field of a cached detail that was fetched or carried by an event and of which no change was missed since, or that an up-to-date queued event carries, equals the server's up to the queue |
| ResyncConvergence.ConvergedExact | packages/core/issues/ws-updaters.ts:50-52 | all unmarked details equal the server's copies up to the queue, for every server that fits what the client was told, if and only if each of their fields is known or rightly queued |
| ResyncConvergence.ReauthenticationSyncs | packages/core/api/ws-client.ts:106-118 | every re-authentication of a listening client leaves no unmarked detail, registered or not |
| ResyncConvergence.ResyncConverges | packages/core/realtime/use-realtime-sync.ts:497-521 | after any history of drops and with registration before or after the acknowledgement: from a re-authentication until the next drop, every unmarked detail with the queued events applied in order equals the server's copy in every field not changed silently since, and wholly if there is none, provided nothing is refetched ahead of registration and no event unmarks a detail it does not complete |
| ResyncConvergence.SessionConverges | packages/core/api/ws-client.ts:106-118 | the same from any moment without unmarked details, first sessions included |
| ResyncConvergence.SilenceExact | packages/core/issues/ws-updaters.ts:75-97 | a synchronised client is right for every server that fits what it was told if and only if no unmarked detail, its own deletion not queued, has a field changed silently and neither announced nor refetched since |
| ResyncConvergence.SilentChangeExact | server/internal/service/task.go:717-720 | right details stay right through changes without an event if and only if no unmarked one is really changed |
| ResyncConvergence.DeletionExact | server/internal/handler/issue.go:1250-1259 | and through a deletion if and only if no unmarked detail is a sub-issue of the deleted issue |
| ResyncConvergence.DeletedParentStays | packages/core/issues/ws-updaters.ts:75-97 | a run that ends connected, with nothing queued, and a sub-issue showing its deleted parent |
| ResyncConvergence.StaleUntilRepaired | packages/core/issues/ws-updaters.ts:50-52 | a stale field outlasts all events, drops and reconnections but a refetch, mark or eviction of the entry, a re-authentication, the deletion of the issue, or another change of the field |
| ListSync.ListConverges | packages/core/realtime/use-realtime-sync.ts:174-201 | after any history, once a registered and listening client has read the list: until the next drop each visible row of an unmarked list, created issues included, equals the server's issue up to the queue in every field not changed silently since, provided no created issue is filed elsewhere and no event unmarks a list with missed changes |
| ListSync.ReauthenticationMarksList | packages/core/api/ws-client.ts:106-118 | every re-authentication of a listening client marks the list, my-lists, child lists and progress |
| ListSync.ListResyncConverges | packages/core/realtime/use-realtime-sync.ts:497-521 | from a re-authentication over a registered connection, in any reachable state, until the next drop, an unmarked list is right in the same sense, whatever was missed before |
| ListSync.UnrelatedEventFreezes | packages/core/issues/ws-updaters.ts:46-48 | if writes clear marks, an event of another issue unmarks the list and a stale row is shown as current |
| Registration.AuthenticationExact | packages/core/api/ws-client.ts:106-118 | a connection catches up with every sequence of server steps before and after its authentication if and only if the client had been connected before, or held no unmarked detail, and fetched nothing that can exist before registration |
| Registration.FirstSessionMisses | packages/core/api/ws-client.ts:108 | a first session that ends registered with a stale unmarked detail |
| Registration.EarlyRefetchMisses | packages/core/api/ws-client.ts:108-116 | a re-authentication, refetch and late registration that end so as well |
| Registration.DisconnectForgets | packages/core/api/ws-client.ts:120-136 | after disconnect the next authentication marks nothing |
| ResyncConvergence.DeliveryExact | packages/core/issues/ws-updaters.ts:50-52 | an update reaching a marked detail, with any queue behind it and any cache, is safe for every conceivable server copy if and only if the write keeps the mark, the deletion is queued, or the known, carried and queued fields are all fields |
| ResyncConvergence.MarkedUpdateExact | packages/core/issues/ws-updaters.ts:50-52 | the same for a detail of which nothing is known: the payload together with the queued ones must be complete |
| Registration.PartialPayloadFreezes | packages/core/issues/ws-updaters.ts:50-52 | after a perfect reconnection an update that omits a stale field unmarks the detail and leaves the field stale |
| TaskMessages.TaskMessageCache.OnTaskMessage | packages/core/realtime/use-realtime-sync.ts:376-384 | inserts by sequence number unless present |
| TaskMessages.DeliveredExactly | packages/core/realtime/use-realtime-sync.ts:376-384 | after any deliveries a task's list is strictly increasing and holds exactly the initial and delivered messages |
| TaskMessages.DeliveriesConverge | packages/core/realtime/use-realtime-sync.ts:376-384 | reordered and repeated deliveries of the same messages leave the same list |
| TaskMessages.UndeterminedDiverges | packages/core/realtime/use-realtime-sync.ts:381 | with two payloads for one number the order does matter |
| StreamingMarkdown.SplitIntoBlocks | packages/ui/markdown/StreamingMarkdown.tsx:49-124 | the loop is the fold of the line machine |
| MarkdownStructure.SplitIsParse | packages/ui/markdown/StreamingMarkdown.tsx:49-124 | for all content the blocks are those of a block-by-block description: fences delimit code, `$$` lines math, and the lines between two boundaries are one trimmed paragraph |
| MarkdownStructure.BlocksShaped | packages/ui/markdown/StreamingMarkdown.tsx:49-124 | a paragraph is trimmed and has no empty line inside; code and math blocks start and end with their delimiter and have none between, but for an open last block and math cut by code |
| MarkdownStructure.OneParagraph | packages/ui/markdown/StreamingMarkdown.tsx:105-112 | lines of text without a boundary between them are one block |
| MarkdownStructure.TwoParagraphs | packages/ui/markdown/StreamingMarkdown.tsx:99-104 | an empty line between them makes two |
| MarkdownStructure.ParagraphExamples | packages/ui/markdown/StreamingMarkdown.tsx:99-112 | both on literals |
| MarkdownStructure.FenceExamples | packages/ui/markdown/StreamingMarkdown.tsx:60-95 | code and math on literals |
| StreamingMarkdown.SplitConserves | packages/ui/markdown/StreamingMarkdown.tsx:49-124 | the blocks hold exactly the input's non-space characters, in order |
| StreamingMarkdown.StabilityExact | packages/ui/markdown/StreamingMarkdown.tsx:49-124 | all blocks but the last are a prefix of the blocks of any continuation, if and only if the continuation does not retract a math opening after a paragraph |
| StreamingMarkdown.RetractionExample | packages/ui/markdown/StreamingMarkdown.tsx:82-92 | a two-line text whose finished paragraph is taken back by one more character |
| StreamingMarkdown.StabilityAlways | packages/ui/markdown/StreamingMarkdown.tsx:49-124 | all blocks but the last two always are |
| StreamingMarkdown.KeysStable | packages/ui/markdown/StreamingMarkdown.tsx:211-218 | without a retraction every memoised block keeps key and content |
| StreamingMarkdown.KeysDistinguish | packages/ui/markdown/StreamingMarkdown.tsx:211-218 | two keys agree exactly for last blocks at one place, or finished blocks at one place with one content hash |
| StreamingMarkdown.CodeBlocksFenced | packages/ui/markdown/StreamingMarkdown.tsx:60-78 | every code block starts and ends with a fence line and has none between, except that the last may be open |
| TailLog.FindTailStart | server/cmd/algoplan/cmd_daemon_windows.go:51-75 | for every file, line count and buffer size the scan finds the specified start |
| TailLog.TailStartUnique | server/cmd/algoplan/cmd_daemon_windows.go:51-75 | there is exactly one such start, so the buffer size has no influence |
| TailLog.TailSpecIsTailStart | server/cmd/algoplan/cmd_daemon_windows.go:51-75 | the one-line specification: the suffix has exactly the wanted newlines behind a newline, or the whole file has no more |
| TailLog.LastLines | server/cmd/algoplan/cmd_daemon_windows.go:51-75 | the position for three files in bytes, one without a final line break |
| Analytics.Analytics.InitAnalytics | packages/core/analytics/index.ts:113-173 | starts once, then flushes all buffers in order |
| Analytics.Analytics.Identify | packages/core/analytics/index.ts:184-190 | buffered, the latest winning, or emitted |
| Analytics.Analytics.ResetAnalytics | packages/core/analytics/index.ts:196-208 | drops the buffers and re-registers the super-properties |
| Analytics.Analytics.CaptureEvent | packages/core/analytics/index.ts:220-229 | buffered in order, or emitted |
| Analytics.Analytics.SetPersonProperties | packages/core/analytics/index.ts:239-245 | buffered in order, or emitted |
| Analytics.Analytics.CapturePageview | packages/core/analytics/index.ts:267-273 | buffered, the latest winning, or emitted |
| Analytics.BufferedExactly | packages/core/analytics/index.ts:184-273 | before initialisation nothing is emitted and the buffers hold the requested operations since the last reset |
| Analytics.LateInitExact | packages/core/analytics/index.ts:113-273 | for every call sequence with initialisation at any point, the whole log: nothing lost, doubled or reordered, only the latest identify and pageview flushed, before the rest |
| Analytics.StartupInFull | packages/core/analytics/index.ts:118-151 | the first two entries by values: key, configured or default host, and exactly the super-properties client type and, if set, version |
| Analytics.ResetReregisters | packages/core/analytics/index.ts:196-208 | a reset of a running client registers the same super-properties again |
| Analytics.NeverInitialised | packages/core/analytics/index.ts:184-273 | without an effective initialisation nothing is ever emitted |
| Linkify.DetectLinks | packages/ui/markdown/linkify.ts:122-166 | ordered disjoint links: all URL matches, and exactly the path matches that overlap none |
| Linkify.OverlapExact | packages/ui/markdown/linkify.ts:112-117 | two matches overlap exactly if they share a character |
| Linkify.AddressesKept | packages/ui/markdown/linkify.ts:127-161 | a link has the text, address, position and kind of its match |
| Linkify.KeptAhead | packages/ui/markdown/linkify.ts:187-201 | each rewritten link starts behind the cursor, which never moves back |
| Linkify.PreprocessLinks | packages/ui/markdown/linkify.ts:172-207 | the loop returns the text with exactly the kept links spliced |
| Linkify.OneLinkWritten | packages/ui/markdown/linkify.ts:187-206 | around one link: outside code and not linked yet, the slice in square brackets and the address in parentheses, else the text as it is |
| Linkify.AlreadyLinkedExact | packages/ui/markdown/linkify.ts:92-110 | which characters around a match make it count as linked |
| Linkify.PreprocessConserves | packages/ui/markdown/linkify.ts:184-206 | taking the inserted markup out restores the text; a link is rewritten exactly if it starts outside code and is not linked already |
| RuntimeUsage.EstimateCost | packages/views/runtimes/utils.ts:44-64 | the cost at the exact model's price or else the first prefix's, or nothing |
| RuntimeUsage.CostOfExact | packages/views/runtimes/utils.ts:44-64 | the cost is the one at the prices of the only entry whose name begins the model's, whatever the order of the table, and nothing without one |
| RuntimeUsage.CostsInFull | packages/views/runtimes/utils.ts:34-64 | for each priced model the cost as a sum of products of the four counts with literal prices |
| RuntimeUsage.AggregateByDate | packages/views/runtimes/utils.ts:91-147 | the loops compute the three sorted tables |
| RuntimeUsage.DayRowColumns | packages/views/runtimes/utils.ts:100-115 | one more record adds each of its counts and its cost to its own column of its date's row, and to no other row |
| RuntimeUsage.ModelRowColumns | packages/views/runtimes/utils.ts:117-122 | and to the row of its model, or of its provider if the model has no name |
| RuntimeUsage.CentsShown | packages/views/runtimes/utils.ts:134-140 | a day's cost is shown to the nearest cent, a half going up |
| RuntimeUsage.TokensByDateConserved | packages/views/runtimes/utils.ts:100-112 | token totals by date equal the input's |
| RuntimeUsage.ModelsConserved | packages/views/runtimes/utils.ts:117-122 | token totals by model equal the input's, model costs add up to the exact total |
| RuntimeUsage.DailyCostBound | packages/views/runtimes/utils.ts:134-140 | the rounded daily costs miss the exact total by at most half a cent per day |
| RuntimeUsage.DailyTablesExact | packages/views/runtimes/utils.ts:130-140 | each date once, in order, with exactly its own sums |
| RuntimeUsage.ModelTableExact | packages/views/runtimes/utils.ts:142-144 | each model once, largest first, with exactly its own sums |
| RuntimeUsage.TablesInOrder | packages/views/runtimes/utils.ts:130-144 | dates in order, models by falling token counts |
| WorkspaceStorage.Workspaces.SetCurrentWorkspace | packages/core/platform/workspace-storage.ts:34-64 | a change of slug queues each missing microtask once |
| WorkspaceStorage.SwitchQueues | packages/core/platform/workspace-storage.ts:34-64 | a switch queues notification and then rehydration, each unless queued; the same slug again queues nothing |
| WorkspaceStorage.CurrentIsLastSet | packages/core/platform/workspace-storage.ts:34-42 | after any steps slug and workspace id are those asked for last |
| WorkspaceStorage.ListenersExact | packages/core/platform/workspace-storage.ts:80-92 | the listeners are exactly those subscribed and not unsubscribed since, the stores those registered |
| WorkspaceStorage.Workspaces.RunMicrotasks | packages/core/platform/workspace-storage.ts:46-62 | the event loop drains the queue |
| WorkspaceStorage.NoSwitchMissed | packages/core/platform/workspace-storage.ts:34-92 | in every run, re-entrant switches included, a pending flag is set exactly when one such task is queued, and once drained all subscribers and stores were last served the slug asked for last |
| WorkspaceStorage.DrainInforms | packages/core/platform/workspace-storage.ts:46-62 | the queue does drain, and leaves everybody informed |
| Inbox.DeduplicateInboxItems | packages/core/inbox/queries.ts:22-43 | the loops compute the specified list |
| Inbox.DeduplicatedExact | packages/core/inbox/queries.ts:22-43 | newest first, one entry per group, each the newest unarchived item of its group |
| Inbox.InboxInFull | packages/core/inbox/queries.ts:22-43 | the same by values: falling creation times, no issue twice, each entry unarchived with none newer of its issue, every issue with an unarchived item present |
| Inbox.DeduplicationIdempotent | packages/core/inbox/queries.ts:22-43 | deduplicating again changes nothing |
| Inbox.InboxCache.ArchiveOnMutate | packages/core/inbox/mutations.ts:34-48 | snapshot, and archiving of the item and its issue's items |
| Inbox.ArchiveInFull | packages/core/inbox/mutations.ts:38-44 | item by item: exactly the item and the items of its non-empty issue are archived, and nothing else of them changes |
| Inbox.InboxCache.OnIssueDeleted | packages/core/inbox/ws-updaters.ts:32-40 | drops the items of the issue |
| Inbox.DeletionRemovesGroup | packages/core/inbox/ws-updaters.ts:29-40 | the visible list loses exactly the issue's entry, if and only if no active item without an issue has the issue's id |
| Inbox.ArchiveRemovesGroup | packages/core/inbox/mutations.ts:34-48 | the visible list loses exactly the group's entry, if and only if all active items of the group are hit |
| Inbox.EmptyIssueIdStays | packages/core/inbox/mutations.ts:38-44 | archiving one of two items with an empty issue id leaves the group on the list |
| Inbox.IssueIdAsItemIdStays | packages/core/inbox/mutations.ts:38-44 | and so does archiving an item whose issue id is another item's own id |
| Inbox.ArchiveOrdinary | packages/core/inbox/mutations.ts:34-48 | which is so for non-empty issue ids distinct from item ids |
| SearchCommand.Dialog.OnSearch | packages/views/search/search-command.tsx:362-374 | clears the timer, aborts the request, and arms a new timer unless the query is blank |
| SearchCommand.Dialog.OnTimer | packages/views/search/search-command.tsx:373-390 | starts the call's request |
| SearchCommand.Dialog.OnSettled | packages/views/search/search-command.tsx:391-402 | stores or drops the outcome |
| SearchCommand.AtMostOneLive | packages/views/search/search-command.tsx:362-404 | under every interleaving at most one request is not aborted, the latest call's, and "loading" never outlives the work |
| SearchCommand.OnlyLatestStored | packages/views/search/search-command.tsx:391-397 | only the latest call's response is ever stored |
| SearchCommand.SearchAnswered | packages/views/search/search-command.tsx:362-397 | after a search for a text that is not blank, and no other, the timer starts a request for its trimmed text, and the answer is shown when it arrives |
| SearchCommand.BlankSearch | packages/views/search/search-command.tsx:366-370 | a blank search clears the list and leads to no request and no result before the next search |
| SearchCommand.UnmountedStoresNothing | packages/views/search/search-command.tsx:345-350 | an unmounted dialog starts no request and stores no answer |
| SearchCommand.ClosedStaysEmptyExact | packages/views/search/search-command.tsx:353-360 | after a close the list stays empty until the next search, over all runs, if and only if nothing was under way |

## Left out

- HTTP client, authentication, routing, rendering, drag and drop, the command-line tool beyond the reverse scan: plumbing around the modelled state.
- Query library internals: a cache is keyed optional values with an invalid flag; a refetch is one atomic read of the server, so responses racing with event writes are not modelled.
- Optimistic writes inside the convergence theorem: the code corrects them by invalidation after settling and promises nothing in between.
- ListSync.ListConverges: rows by "load more" are not reads of the whole list, so they are not covered; nor is which issues a list lacks, or issues returning from `cancelled`, which the code leaves to a later refetch.
- Query keys of other workspaces, and the query key for the usage of an issue.
- `UpdateIssueRequest` fields set explicitly to `undefined`: absent and undefined columns are the same in the model.
- WsClient.WSClient.OnMessage: handlers of non-issue events and the any-handlers are not part of the model.
- RealtimeSync: the events of one connection are in the order of the changes they announce.
- RealtimeSync.LinksRefine: the protocol has one socket at a time, which the theorem justifies for callers that connect each client once.
- What `disconnect` leaves attached to a closing socket (`onopen`, `onmessage`): a closing socket delivers neither.
- `inbox:new`, member, invitation and workspace events, and the debounced refresh per event prefix: each is one invalidation. The inbox rows' issue status (`onInboxIssueStatusChanged`), which neither grouping nor order reads, and the chat and task events that write chat entries.
- Exceptions thrown by subscribers, rehydration functions or reconnect callbacks.
- WorkspaceStorage.NoSwitchMissed: a subscriber counts as having read the slug when it subscribed, and a store as hydrated when it registered, which is what their callers do.
- Pagination.FetchFirstPages: requires all responses, since the code awaits them together and a failure leaves the cache alone.
- Regular expressions and the URL detector: their matches are inputs, ordered and disjoint, with the matched slice as text. Code ranges are arbitrary.
- RuntimeUsage.CostOfExact: `MODEL_PRICING[model]` also finds properties every object inherits, so a model named like one of them costs NaN in the code and 0 in the model.
- UTF-16 code units: strings are sequences of Unicode characters.
- `simpleHash`: the block keys are proved stable for every hash function.
- Read errors and a log file that changes during the scan; following the file.
- RuntimeUsage.DailyCostBound: costs are exact integers in units of 10^-8 dollar, so floating-point error is not modelled; the display label of a date is not modelled; the locale's order of dates is a parameter.
- Inbox.DeduplicatedExact: creation times are numbers; an unparsable date is not modelled.
