# DotSound backend: a Dafny model

This project models the parts of the DotSound backend that keep state over time or rewrite data in
several passes, and proves what they guarantee. `dafny verify dfyconfig.toml` checks all of it.

| subject | files |
|---|---|
| WebSocket connection manager | `WsProtocol`, `WsInvariants`, `WsSteps`, `WsHistory`, `WsEffects`, `WsTheorems`, `WsDraining`, `WsCap`, `ConnectionManager` |
| duplicate-track merge | `UnionFind`, `MergePlan`, `TrackMerge` |
| saved-chat migration | `SavedChats`, `SavedChatsUpgrade` |
| background jobs | `JobLifecycle`, `JobRuns` |
| name de-duplication | `PythonText`, `NameDedupe` |
| commit trailers | `TrailerStrip` |
| lyrics filter, latest failure | `LyricsFilter`, `LatestFailure` |
| Sentry scrubber, proxy header | `PiiScrubber`, `ProxyHeader` |
| shared | `Wrappers` (Option), `Rows` (query results as sequences) |

**Connection manager.** Each await-free stretch of `app/core/ws_manager.py` is one atomic step
(`WsProtocol.Step`), and a run is any sequence of steps: connects whose handshake succeeds or fails,
disconnects, deliveries, writer tasks taking, sending and failing, detached evictions, cancelled
writers unwinding, and the pubsub lock serving its FIFO queue. A per-socket history (`Log`) records what
was delivered, taken by the queue, sent and closed; no step reads it to decide anything. `WsHistory`
reads the same history off the events of a run and the manager's own fields (`Replay`, `FannedOut`), and
proves that the log records exactly that, so the theorems over runs do not rest on the log. The class
`ConnectionManager` assigns the manager's own fields, and each of its methods is proved to take the
protocol's step; `Turn` ties the two together for any next segment. `WsEffects` says outright what each
operation does to the socket it is about, and that a socket taken down stays down. The invariant is proved step by
step over small views of one socket, one teardown or one writer at a time.

The per-user cap is tested before the handshake and taken after it, so it is not an invariant:
`WsCap` proves that it holds when a user's connects do not overlap, that over any run it holds throughout
exactly when every connect is refused or finds room beside the pending handshakes, and that overlapping
connects can exceed it by any amount. A disconnect must name the user an open socket is listed under;
`ForeignDisconnectOrphans` shows what becomes of the registry otherwise.

**Track merge.** `Related` is reachability along a path of unions, defined without any union-find. The
class keeps, as ghost state, the unions made and the least member of every class. The plan is characterised by the
connected components of "same sc_url, or same imported_from and external_id", and the sequence of
small updates and deletes is proved equal to one image of each original table.

**Saved chats.** `CanonicalFor` and `Migrated` describe the result of the migration relative to the old
tables alone; `ChatDb.Upgrade` runs the passes in the source's order and is proved to meet them, the
lemmas in `SavedChats` say what that means.

**Background jobs.** The three hooks assign the fields of a loaded row. In `JobRuns` loading and
committing are separate steps (a commit writes the columns that changed), so hooks interleave with the
admin panel's two kinds of cancellation. `done`, `failed_terminal` and `cancelled` are then *not*
absorbing without qualification: `TerminalUnlessStale` gives the exact condition under which one is
overwritten, `CancelledIsLost` and `FinishedIsReopened` are concrete runs, and
`UninterruptedHookKeepsTerminal` and `UninterruptedRequestKeepsTerminal` show that loads and commits
that are not interrupted keep them. The bound on executions, the single message and the single alert
hold in every run.

**Names.** `str.strip`, `str.split` and `str` of a number are modelled character by character;
`str.lower` is any function on characters that fixes spaces and digits and makes none vanish; that it makes no spaces either is assumed only where names are
compared. The
normal form stored for an artist whose name was blank need not be the normal form of the stored
name ("artist-7" for "Artist 7"); `ArtistNormMatches` says exactly when it is.

**Trailers.** The stdin filter reads text with universal newlines, which `strip_trailers` on a raw
string does not; `StrippersAgree` says exactly which messages they treat alike.

**Proxy header.** The two walks differ on entries that are not addresses: one returns such an entry,
the other passes over it. `WalksAgree` gives the exact condition.

## Model

| member | source | states |
|---|---|---|
| WsSteps.StepKeeps | app/core/ws_manager.py:117-436 | every step of every segment keeps the whole invariant of sockets, teardowns, writers, lists, lock and subscriptions |
| WsSteps.RunKeeps | app/core/ws_manager.py:117-436 | and so does every run |
| WsSteps.AcceptDoneKeeps | app/core/ws_manager.py:136-143 | registering a socket and queueing the subscribe in one segment keeps it |
| WsSteps.TeardownBeginKeeps | app/core/ws_manager.py:167-182 | popping the state, stopping the writer and, if there is nothing to wait for, leaving the list keep it |
| WsSteps.RemoveKeeps | app/core/ws_manager.py:178-184 | leaving the list and queueing the unsubscribe in one segment keep it |
| WsSteps.WriterFailsKeeps | app/core/ws_manager.py:425-434 | a writer whose send failed tears down its own socket without waiting for itself, and keeps it |
| WsSteps.DeliverKeeps | app/core/ws_manager.py:359-402 | a delivery to all of a user's sockets, with its evictions, keeps it |
| WsTheorems.SubscriptionAgreement | app/core/ws_manager.py:136-143 | in every reachable state the subscriptions, once the queued requests have run in order, are the users with a connection; with none queued they are so now |
| WsTheorems.RegistryAgreement | app/core/ws_manager.py:152-199 | no empty list, no socket twice or under two users, every open socket listed, and a listed socket that is not open belongs to a teardown stopping its writer |
| WsTheorems.OneCleanup | app/core/ws_manager.py:167-198 | one teardown at most works on a socket, its state is gone by then, and the eviction close is sent at most once and last |
| WsTheorems.DeliveryAgreement | app/core/ws_manager.py:369-381 | sent, in flight and queued make up what the queue took, in order; the queue holds at most 100; one live writer at most, and only for an open socket |
| WsTheorems.OverflowEvicts | app/core/ws_manager.py:359-402 | over any run, the queue took exactly the payloads delivered to the socket's user since it registered, up to the first delivery that found it full; from then on a teardown of the socket is scheduled with the slow-consumer code, or one is running or done |
| WsTheorems.SentInOrder | app/core/ws_manager.py:410-425 | over any run, what an open socket was sent, is being sent and still queues is what its queue took |
| WsHistory.RunHistory | app/core/ws_manager.py:359-425 | the log of a socket is the history of the run: deliveries to its user while it was open, what was taken, what was sent, and the first overflow |
| WsHistory.HistoryStep | app/core/ws_manager.py:359-425 | a delivery counts for every open socket of the user, a send for the writer's socket, and no other step adds anything |
| WsHistory.DeliverAt | app/core/ws_manager.py:360-402 | one delivery reaches exactly the user's open sockets, once each, whatever the others' queues hold |
| WsTheorems.DeliveryIsLocal | app/core/ws_manager.py:370-381 | whether a socket takes a payload depends on its own queue alone, whatever the user's other sockets do |
| WsHistory.EnqueueAllAt | app/core/ws_manager.py:370-381 | the fan-out loop gives each socket the payload once, and evicts exactly the open sockets that were full |
| WsDraining.CleanupShrinksWork | app/core/ws_manager.py:152-218 | every cleanup step lowers a measure, so no schedule can take more of them in a row than it says |
| WsDraining.CleanupCanRun | app/core/ws_manager.py:177-198 | no deadlock: while anything is half done some cleanup step can run |
| WsDraining.Drains | app/core/ws_manager.py:152-218 | cleanup alone reaches a quiet state from any state the invariant allows |
| WsDraining.QuietAgreement | app/core/ws_manager.py:152-226 | in a quiet state open sockets, listed sockets and subscriptions match exactly, and an evicted socket was closed once with 4408 |
| WsEffects.ConnectStartsHandshake | app/core/ws_manager.py:123-135 | a user with six connections is refused, any other handshake starts, and nothing is registered yet |
| WsEffects.AcceptRegisters | app/core/ws_manager.py:136-143 | the socket is last in its user's list, open, with an empty queue and no writer; a first one queues the subscribe; nothing else changes |
| WsEffects.AcceptFailureLeavesNothing | app/core/ws_manager.py:132-135 | a failed handshake leaves no trace |
| WsEffects.DisconnectTakesDown | app/core/ws_manager.py:149-184 | a new teardown has popped the open socket's state; it waits for the running writer it has cancelled, and otherwise has the socket off the list, the last one with its unsubscribe queued |
| WsEffects.FailedSendTakesDown | app/core/ws_manager.py:428-434 | the same for a failed send, which never waits for the writer itself |
| WsEffects.EvictionTakesDown | app/core/ws_manager.py:394-402 | the same for a detached eviction, with code 4408; of a socket already taken down it is a no-op |
| WsEffects.DisconnectedIsGone | app/core/ws_manager.py:149-199 | no later state has the socket open, and every later quiet state has it on no list |
| WsEffects.FailedSocketIsGone | app/core/ws_manager.py:428-434 | the same after a failed send |
| WsEffects.ClosedStays | app/core/ws_manager.py:167-176 | no step reopens a socket that was taken down |
| WsEffects.GetTakesHead | app/core/ws_manager.py:423 | the writer takes the head of its own queue |
| WsEffects.WriterDrains | app/core/ws_manager.py:421-425 | left to run, a writer sends everything its queue has taken, in order |
| WsCap.SerialConnectsKeepCap | app/core/ws_manager.py:123-137 | if a user's connects never overlap the user never has more than six connections |
| WsCap.ConnectKeepsCapIff | app/core/ws_manager.py:123-131 | one connect keeps connections plus pending handshakes within six exactly when it is refused or the pending ones leave room |
| WsCap.WithinIffRoomy | app/core/ws_manager.py:123-137 | over any run connections plus pending handshakes stay within six throughout exactly when every connect of the user is refused or finds room |
| WsCap.OverlapsIgnoreCap | app/core/ws_manager.py:123-137 | overlapping connects reach any number of connections |
| WsCap.DemandIsMet | app/core/ws_manager.py:132-137 | the handshakes pending can all turn into connections |
| ConnectionManagers.ConnectionManager.ConnectCall | app/core/ws_manager.py:123-135 | admits exactly below six listed connections, and only starts the handshake |
| ConnectionManagers.ConnectionManager.AcceptReturns | app/core/ws_manager.py:136-143 | takes the protocol's step: appends to the user's list, makes the state, queues the subscribe for a first connection |
| ConnectionManagers.ConnectionManager.DisconnectCall | app/core/ws_manager.py:149-182 | takes the protocol's step of an explicit disconnect; of a socket with no state it is a no-op |
| WsTheorems.ForeignDisconnectOrphans | app/core/ws_manager.py:167-182 | disconnecting an open socket under a user who does not list it leaves it listed, without state and with no teardown to take it off |
| ConnectionManagers.ConnectionManager.BeginTeardown | app/core/ws_manager.py:167-184 | the teardown's first segment, a no-op when the state is gone |
| ConnectionManagers.ConnectionManager.StopWriter | app/core/ws_manager.py:201-211 | nothing to wait for exactly when there is no running writer or it is the caller; otherwise the writer is cancelled |
| ConnectionManagers.ConnectionManager.RemoveConnection | app/core/ws_manager.py:178-184 | leaves the list, and drops an empty list together with queueing the unsubscribe |
| ConnectionManagers.ConnectionManager.EvictionRuns | app/core/ws_manager.py:394-402 | a detached eviction starts its teardown |
| ConnectionManagers.ConnectionManager.CloseRuns | app/core/ws_manager.py:196-199 | the close is sent with the eviction's code, if there is one, and the teardown ends |
| ConnectionManagers.ConnectionManager.LockServed | app/core/ws_manager.py:142-187 | the head of the lock queue runs its command and its waiter goes on |
| ConnectionManagers.ConnectionManager.DeliverLocal | app/core/ws_manager.py:359-402 | the two loops are the protocol's delivery step |
| ConnectionManagers.ConnectionManager.EnqueueOne | app/core/ws_manager.py:371-381 | starts a writer if none runs, then takes the payload or reports the queue full |
| ConnectionManagers.ConnectionManager.WriterRaises | app/core/ws_manager.py:428-434 | a failed send starts the writer's own teardown |
| ConnectionManagers.ConnectionManager.Turn | app/core/ws_manager.py:117-436 | whatever segment runs next, the object takes the protocol's step and stays valid |
| UnionFinds.UnionFind.Find | scripts/dedupe_tracks.py:88-100 | returns the recorded root of x, adds x if it is new, and changes neither the unions nor any other root |
| UnionFinds.UnionFind.FollowParents | scripts/dedupe_tracks.py:92-94 | the walk up ends at the root, every parent on it being smaller |
| UnionFinds.UnionFind.Compress | scripts/dedupe_tracks.py:95-99 | path compression ends and changes no root |
| UnionFinds.UnionFind.Union | scripts/dedupe_tracks.py:102-109 | records one more union and stays valid |
| UnionFinds.RootsDecideRelated | scripts/dedupe_tracks.py:84-109 | two known ids have one root exactly when a path of unions joins them |
| UnionFinds.RootIsMinimum | scripts/dedupe_tracks.py:106-109 | the root is a member of the class and its minimum |
| UnionFinds.LinkClassifies | scripts/dedupe_tracks.py:102-109 | pointing the larger root at the smaller merges the two classes and no others |
| UnionFinds.CompressionKeepsRoots | scripts/dedupe_tracks.py:96-99 | repointing a node at its root keeps every root |
| MergePlans.BuildMergePlan | scripts/dedupe_tracks.py:115-158 | the plan sends each track to the least track of its connected component, and to no other; groups are disjoint lists of larger ids and no canonical is a duplicate |
| MergePlans.SharesKeyMeans | scripts/dedupe_tracks.py:121-148 | duplicates share a non-null sc_url, or a non-null external id and where it was imported from |
| MergePlans.PlanMergesComponents | scripts/dedupe_tracks.py:132-158 | joining each row to its first id is enough to connect everything that shares a key |
| MergePlans.SurvivorsFitIndexes | alembic/versions/0045_dedupe_unique_constraints.py:20-31 | the tracks left satisfy both partial unique indexes |
| TrackMerges.TrackDb.MergeOne | scripts/dedupe_tracks.py:161-244 | merging one more duplicate turns the image under the old redirects into the image under the new ones, in every table |
| TrackMerges.TrackDb.MergeComposites | scripts/dedupe_tracks.py:184-207 | delete-then-update does so for composite tables |
| TrackMerges.TrackDb.MergePerTracks | scripts/dedupe_tracks.py:209-236 | delete-or-update does so for tables with one row per track |
| TrackMerges.TrackDb.ApplyPlan | scripts/dedupe_tracks.py:266-278 | the whole loop leaves each table equal to one image of its original rows |
| TrackMerges.TrackDb.Run | scripts/dedupe_tracks.py:247-289 | the script does that for the component plan and the survivors fit the indexes; without --apply nothing changes |
| TrackMerges.CompositeStep | scripts/dedupe_tracks.py:184-207 | deleting clashes and redirecting one duplicate composes with the image so far |
| TrackMerges.PerTrackIsComposite | scripts/dedupe_tracks.py:209-236 | the per-track branches are the composite step with no other key columns |
| TrackMerges.PlainTableMeaning | scripts/dedupe_tracks.py:174-182 | a plain table keeps every row and every other column; only the track moves, to its canonical |
| TrackMerges.KeyedTableMeaning | scripts/dedupe_tracks.py:184-236 | a keyed table holds a key exactly when an original row lands on it, once, and keeps the row of the smallest track id |
| TrackMerges.CanonicalRowStays | scripts/dedupe_tracks.py:210-225 | a canonical track's own rows stay as they were |
| TrackMerges.NoDuplicateMentioned | scripts/dedupe_tracks.py:238-241 | no listed table and not the tracks table mention a duplicate afterwards |
| TrackMerges.SecondRunIsIdle | scripts/dedupe_tracks.py:256-258 | a second run finds nothing |
| SavedChatsUpgrade.ChatDb.Upgrade | alembic/versions/0016_fix_saved_chat_isolation.py:17-221 | all passes in order do the migration described over the old tables, and foreign keys still hold |
| SavedChatsUpgrade.ChatDb.SelectSavedConversations | alembic/versions/0016_fix_saved_chat_isolation.py:44-54 | the saved conversations, each once, by owner and id |
| SavedChatsUpgrade.ChatDb.OldestByOwner | alembic/versions/0016_fix_saved_chat_isolation.py:56-61 | setdefault keeps each owner's smallest id |
| SavedChatsUpgrade.ChatDb.CreateMissing | alembic/versions/0016_fix_saved_chat_isolation.py:80-93 | exactly the senders without one get a new conversation, each their own |
| SavedChatsUpgrade.ChatDb.CollectFlag | alembic/versions/0016_fix_saved_chat_isolation.py:95-126 | a flag is set exactly when some own membership of the owner in an own saved conversation had it |
| SavedChatsUpgrade.ChatDb.Retitle | alembic/versions/0016_fix_saved_chat_isolation.py:128-137 | canonical conversations get type, title and owner; the others stay |
| SavedChatsUpgrade.ChatDb.MoveMessages | alembic/versions/0016_fix_saved_chat_isolation.py:139-150 | each saved message moves to its sender's conversation and nothing else of it changes |
| SavedChatsUpgrade.ChatDb.RepairReplies | alembic/versions/0016_fix_saved_chat_isolation.py:152-183 | a reply is cleared exactly when its target is not in the same saved conversation |
| SavedChatsUpgrade.ChatDb.RebuildMembers | alembic/versions/0016_fix_saved_chat_isolation.py:185-213 | saved conversations end with their owner as the only member, with the collected flags; other memberships stay |
| SavedChatsUpgrade.ChatDb.DeleteLeftovers | alembic/versions/0016_fix_saved_chat_isolation.py:215-221 | exactly the saved conversations that are not canonical go, and with them their members and messages |
| SavedChatsUpgrade.DeleteFinishes | alembic/versions/0016_fix_saved_chat_isolation.py:215-221 | the cascade takes no message with it |
| SavedChatsUpgrade.RepairedIsMigrated | alembic/versions/0016_fix_saved_chat_isolation.py:139-183 | the second message pass sees exactly the moved messages, so a link stays iff its target was saved by the same sender |
| SavedChats.SavedMessagesAreIsolated | alembic/versions/0016_fix_saved_chat_isolation.py:139-150 | every saved message survives in a saved conversation created by its sender |
| SavedChats.OneSavedConversation | alembic/versions/0016_fix_saved_chat_isolation.py:56-137 | exactly the users with a saved conversation or message have one, one each, titled and owned as set, their smallest old one if they had any |
| SavedChats.SavedOwnersAreUnique | alembic/versions/0016_fix_saved_chat_isolation.py:223-230 | the unique index created at the end fits |
| SavedChats.OthersUntouched | alembic/versions/0016_fix_saved_chat_isolation.py:185-221 | other conversations, their members and their messages do not change |
| SavedChats.RepliesStayPrivate | alembic/versions/0016_fix_saved_chat_isolation.py:171-183 | a reply link stays exactly when the target was a saved message of the same sender, and then both are in one conversation |
| SavedChats.OwnerIsOnlyMember | alembic/versions/0016_fix_saved_chat_isolation.py:185-213 | a saved conversation has its owner as only member, with role owner and no last read message, pinned iff one of the owner's old own memberships was pinned, muted iff one was muted |
| SavedChats.FlagColumns | alembic/versions/0016_fix_saved_chat_isolation.py:115-126 | the pinned flag is collected from is_pinned, the muted flag from is_muted |
| SavedChats.SecondRunChangesNothing | alembic/versions/0016_fix_saved_chat_isolation.py:17-221 | a second run changes no conversation, membership or message |
| JobLifecycle.PreExecute | app/core/taskiq_middleware.py:89-117 | the whole row: an attempt is counted and the start noted exactly when the row is neither cancelled nor signalled; otherwise it is cancelled, now, keeping a reason it had |
| JobLifecycle.PostExecute | app/core/taskiq_middleware.py:119-155 | the whole row: done with its result, no error and the time in whole milliseconds, or cancelled if it was cancelled or cancelling; an error result writes nothing |
| JobLifecycle.OnError | app/core/taskiq_middleware.py:157-225 | the whole row and the reaction: queued and retried while attempts are below the row's maximum, else the label's, else 3; otherwise failed_terminal with its time and an alert; cancelled if it was cancelled or cancelling |
| JobLifecycle.MillisecondsTruncate | app/core/taskiq_middleware.py:144-148 | durations are rounded towards zero |
| JobLifecycle.BackoffGrows | app/core/taskiq_middleware.py:189-191 | each wait is between 1 and 60 seconds and no shorter than the one before |
| JobLifecycle.TotalWait | app/core/taskiq_middleware.py:183-198 | the waits of a job that uses m attempts sum to 2^(m-1)-1 up to seven attempts and to 63+60(m-7) from seven |
| JobRuns.StepKeeps | app/core/taskiq_middleware.py:89-252 | every load, commit, re-kick, cancellation and purge keeps the invariant |
| JobRuns.Bounded | app/core/taskiq_middleware.py:157-252 | one message at most; the body starts at most max(1, effective max) times, cancelled or not; a finished job has no message |
| JobRuns.OneAlert | app/core/taskiq_middleware.py:199-225 | an alert is fired by exactly the step that makes the row failed_terminal, and at most once |
| JobRuns.AlertedWaits | app/core/taskiq_middleware.py:183-225 | a job that ended in the alert used every attempt and waited the closed form |
| JobRuns.TriedOut | app/core/taskiq_middleware.py:183-252 | left to fail, a queued job is tried until its budget is spent, no less, and then ends failed_terminal with one alert |
| JobRuns.FailOnce | app/core/taskiq_middleware.py:157-225 | one failed attempt leaves the message waiting the backoff if attempts are left, and the alert if not |
| JobRuns.UninterruptedHook | app/core/taskiq_middleware.py:89-225 | a hook that is not interrupted makes of the stored row what it makes of a row |
| JobRuns.HookConfirmsCancel | app/core/taskiq_middleware.py:99-182 | a hook that loaded a cancelling row stores cancelled, ends the message after the body, and alerts nobody |
| JobRuns.RequestCancels | app/api/v1/admin/tasks.py:1168-1250 | an uninterrupted single request makes an active row cancelling; a bulk one makes a queued row cancelled, and others cancelling, with its reasons |
| JobRuns.BulkCancelEnds | app/api/v1/admin/tasks.py:1168-1187 | a bulk cancellation of a job still in the queue ends it and purges its message |
| JobRuns.PurgeTakesQueued | app/api/v1/admin/tasks.py:756-781 | the purge takes a message only while it is queued |
| JobRuns.TerminalUnlessStale | app/core/taskiq_middleware.py:96-210 | a terminal status is overwritten exactly by a commit whose load saw the job active |
| JobRuns.HooksKeepFinished | app/core/taskiq_middleware.py:119-225 | no hook changes a row that is done or failed_terminal |
| JobRuns.UninterruptedHookKeepsTerminal | app/core/taskiq_middleware.py:99-108 | a hook not interrupted between load and commit keeps every terminal status |
| JobRuns.UninterruptedRequestKeepsTerminal | app/api/v1/admin/tasks.py:1242-1250 | so does a single cancellation, and a bulk one does not select the row |
| JobRuns.CancelledIsLost | app/api/v1/admin/tasks.py:1168-1187 | a bulk cancel between the load and the commit of pre_execute is overwritten by running |
| JobRuns.FinishedIsReopened | app/api/v1/admin/tasks.py:1242-1249 | a cancellation loaded before the job finished and committed after leaves it cancelling with no message |
| JobRuns.StepShrinks | app/core/taskiq_middleware.py:183-198 | effective max less executions, with the stage, falls at every move of the message |
| JobRuns.JobComesToRest | app/core/taskiq_middleware.py:183-252 | a job makes at most 6 max(1, effective max) + 2 moves however it is interleaved, and can always move while a message is outstanding |
| PythonText.SplitAtSpace | alembic/versions/0075_user_owned_artist_and_name_uniqueness.py:19-23 | splitting at whitespace treats what is before and after a space separately |
| PythonText.SplitJoin | alembic/versions/0075_user_owned_artist_and_name_uniqueness.py:22 | joined words split into the same words |
| PythonText.StripIsMiddle | alembic/versions/0075_user_owned_artist_and_name_uniqueness.py:48 | stripping takes the whitespace at the ends and nothing else |
| PythonText.DecimalReads | alembic/versions/0075_user_owned_artist_and_name_uniqueness.py:52 | a suffix reads as its number |
| NameDedupes.NormalOfBlank | alembic/versions/0075_user_owned_artist_and_name_uniqueness.py:19-23 | only names of nothing but whitespace have no normal form |
| NameDedupes.SameNormalIffSameWords | alembic/versions/0075_user_owned_artist_and_name_uniqueness.py:19-23 | two names have one normal form exactly when their lower-cased words are the same, in the same order |
| NameDedupes.CaseIsIgnored | alembic/versions/0075_user_owned_artist_and_name_uniqueness.py:22 | names that differ only in case have one normal form |
| NameDedupes.SpacingIsIgnored | alembic/versions/0075_user_owned_artist_and_name_uniqueness.py:22 | names that differ only in spacing have one normal form |
| NameDedupes.NormalOfSuffixed | alembic/versions/0075_user_owned_artist_and_name_uniqueness.py:52-56 | norm("s k") = norm(s) + " k", so there is always one and the fallback norms in the loops are never used |
| NameDedupes.SuffixInjective | alembic/versions/0075_user_owned_artist_and_name_uniqueness.py:51-56 | different suffixes give different normal forms |
| NameDedupes.TryNext | alembic/versions/0075_user_owned_artist_and_name_uniqueness.py:50-56 | every turn of the loop has found another name taken, so it ends |
| NameDedupes.FreeUserName | alembic/versions/0075_user_owned_artist_and_name_uniqueness.py:48-56 | the stripped name if free, otherwise the least suffix from 2 that is |
| NameDedupes.FreeArtistName | alembic/versions/0075_user_owned_artist_and_name_uniqueness.py:86-96 | the same for artists, with a blank name standing in as Artist |
| NameDedupes.NameDb.DedupeUsers | alembic/versions/0075_user_owned_artist_and_name_uniqueness.py:26-64 | each user, in order of id, gets the first free name given the norms of smaller ids; blank names become NULL |
| NameDedupes.NameDb.DedupeArtists | alembic/versions/0075_user_owned_artist_and_name_uniqueness.py:67-104 | each artist likewise, given all users' norms too |
| NameDedupes.NameDb.Upgrade | alembic/versions/0075_user_owned_artist_and_name_uniqueness.py:129-131 | both passes |
| NameDedupes.UserNormsAreDistinct | alembic/versions/0075_user_owned_artist_and_name_uniqueness.py:133-137 | the unique constraint on users fits |
| NameDedupes.ArtistNormsAreDistinct | alembic/versions/0075_user_owned_artist_and_name_uniqueness.py:138-142 | the unique constraint on artists fits |
| NameDedupes.ArtistsAvoidUsers | alembic/versions/0075_user_owned_artist_and_name_uniqueness.py:74-83 | no artist has a user's normal form |
| NameDedupes.UserNamesDiffer | alembic/versions/0075_user_owned_artist_and_name_uniqueness.py:26-64 | no two users end up with names that differ only in case or spacing |
| NameDedupes.ArtistNamesDiffer | alembic/versions/0075_user_owned_artist_and_name_uniqueness.py:67-104 | nor do two artists whose names were not blank |
| NameDedupes.ArtistAndUserNamesDiffer | alembic/versions/0075_user_owned_artist_and_name_uniqueness.py:74-104 | nor an artist whose name was not blank and a user |
| NameDedupes.UserOutcome | alembic/versions/0075_user_owned_artist_and_name_uniqueness.py:48-64 | a user keeps the stripped name if its normal form is new, and otherwise gets the least number from 2 that makes it so |
| NameDedupes.BlankUserOutcome | alembic/versions/0075_user_owned_artist_and_name_uniqueness.py:39-47 | a blank display name becomes NULL |
| NameDedupes.ArtistOutcome | alembic/versions/0075_user_owned_artist_and_name_uniqueness.py:86-104 | an artist likewise; a blank one is "Artist <id>" under "artist-<id>", or "Artist k" |
| NameDedupes.UserNormMatches | alembic/versions/0075_user_owned_artist_and_name_uniqueness.py:48-64 | the stored norm is the normal form of the stored name, and is there exactly for names that were not blank |
| NameDedupes.ArtistNormMatches | alembic/versions/0075_user_owned_artist_and_name_uniqueness.py:86-104 | for artists it is so exactly when the name was not blank or "artist-<id>" was already taken |
| NameDedupes.UsersUnique | alembic/versions/0075_user_owned_artist_and_name_uniqueness.py:26-64 | the outcome is settled by the table and the order of ids |
| TrailerStrips.ClassifyMessage | scripts/strip_ai_coauthors.py:152-164 | the names of the rules matched, and as samples the stripped lines of the first eight matches, line by line and rule by rule |
| TrailerStrips.StripTrailers | scripts/strip_ai_coauthors.py:167-185 | the text has exactly the lines no rule matches, in order, up to the last of them that is not blank, and the final newline of the body; removed names the first rule of each trailer |
| TrailerStrips.FilterMain | scripts/_strip_ai_coauthors_msg_filter.py:29-42 | the same text for its input read as text, which is what strip_trailers returns whatever the rules are called |
| TrailerStrips.StripTextCleans | scripts/strip_ai_coauthors.py:170-185 | the kept lines are those at an increasing list of positions, a position being in it exactly when its line is no trailer and one not blank and no trailer is at or after it |
| TrailerStrips.SamplesAreHits | scripts/strip_ai_coauthors.py:155-164 | samples are the stripped lines of the matches, in order |
| TrailerStrips.CategoriesAreFound | scripts/strip_ai_coauthors.py:155-164 | categories are the names of rules that some line matches |
| TrailerStrips.RemovedAreFirst | scripts/strip_ai_coauthors.py:170-177 | removed are the names of the first rules that lines match |
| TrailerStrips.RemovedVersusCategories | scripts/strip_ai_coauthors.py:152-185 | removed is a subset of the categories, and empty exactly when they are |
| TrailerStrips.StrippedLines | scripts/strip_ai_coauthors.py:178-185 | the result reads back as the lines that are no trailers, in order, less blank ones at the end; a final newline stays |
| TrailerStrips.TailDropped | scripts/strip_ai_coauthors.py:180-181 | only blank lines at the end are popped, and all of them |
| TrailerStrips.StrippedIsClean | scripts/strip_ai_coauthors.py:152-185 | classifying the result finds nothing |
| TrailerStrips.StripIsIdempotent | scripts/strip_ai_coauthors.py:167-185 | stripping twice is stripping once |
| TrailerStrips.StrippersAgree | scripts/_strip_ai_coauthors_msg_filter.py:30-42 | the filter and strip_trailers give the same text unless the message ends in a bare carriage return and something survives |
| LyricsFilters.DialectsAgree | app/repositories/admin.py:109-125 | both dialect forms agree, are never NULL, never fail, and are true exactly for non-empty arrays |
| LyricsFilters.CaseIsNeeded | app/repositories/admin.py:114-118 | without the CASE the PostgreSQL form fails on exactly the stored documents that are no arrays |
| LyricsFilters.OneStatus | app/repositories/admin.py:146-160 | exactly one of synced, unsynced and missing selects a track |
| LyricsFilters.StatusesMean | app/repositories/admin.py:146-160 | synced selects tracks with a non-empty array, unsynced those with a lyrics row and anything else, missing those without one |
| LyricsFilters.SwitchesMean | app/repositories/admin.py:139-145 | what the two switches select, and that the catalogue one comes first |
| LyricsFilters.StatusesPartition | app/repositories/admin.py:139-160 | with any other switches the condition is never NULL and the three split what is selected without a status |
| LyricsFilters.TrackLyricsSyncStatuses | app/repositories/admin.py:323-353 | every requested track gets one entry, and in both dialects the filter it names selects the track |
| LatestFailures.FirstIsNewest | app/repositories/admin.py:42-49 | row number 1 is the event no other of the track is newer than |
| LatestFailures.RowNumbersFollowOrder | app/repositories/admin.py:42-49 | row numbers increase along the order |
| LatestFailures.LatestIsUnique | app/repositories/admin.py:63-66 | row number 1 is unique, so the join repeats no track |
| LatestFailures.LatestTrackPlaybackFailureEvents | app/repositories/admin.py:581-601 | sort, then first wins, gives each requested track with events the event numbered 1, and no other track; no event of the track is later, and of equally late ones none has a larger id |
| LatestFailures.LoopAndFilterAgree | app/repositories/admin.py:55-67 | the answer for a track does not depend on the other tracks asked for, and the error filter goes by the same event |
| PiiScrubbers.NonInterference | app/core/observability.py:700-710 | two events scrub to the same exactly when they differ only under blocked keys |
| PiiScrubbers.KeptOutside | app/core/observability.py:701-710 | off the blocked keys every place holds what it held, scrubbed |
| PiiScrubbers.RedactedInside | app/core/observability.py:702-706 | anything reached through a blocked key is the marker, with nothing below it |
| PiiScrubbers.ScrubbedIsClean | app/core/observability.py:700-710 | every blocked key, at any depth, holds the marker |
| PiiScrubbers.UnchangedIffClean | app/core/observability.py:700-710 | scrubbing leaves an event as it is exactly when that already holds |
| PiiScrubbers.ScrubIsIdempotent | app/core/observability.py:700-715 | scrubbing twice is scrubbing once |
| PiiScrubbers.CaseInsensitive | app/core/observability.py:678-693 | a key is blocked by its lower-case form, exactly if it is one of the listed user keys or an admin key in lower case |
| ProxyHeaders.RealClientIp | app/core/rate_limit.py:22-55 | the loop returns what the specification of the walk says |
| ProxyHeaders.EntriesAreFields | app/core/client_ip.py:25-27 | the entries are the fields between commas that are not blank, stripped, in order |
| ProxyHeaders.ResolvedWithoutHeader | app/core/client_ip.py:16-23 | no peer, no address; no header, the peer |
| ProxyHeaders.RealClientIsPeerOrLast | app/core/rate_limit.py:32-55 | the peer, or the address of the rightmost entry that is an untrusted address when the peer is trusted |
| ProxyHeaders.ResolvedIsPeerOrLast | app/core/client_ip.py:11-32 | the peer, or the rightmost untrusted entry when the peer is trusted |
| ProxyHeaders.PrependedText | app/core/client_ip.py:23-32 | text and a comma in front of a header count only when the header has no untrusted entry |
| ProxyHeaders.PrependedTextForLimiter | app/core/rate_limit.py:43-55 | the same for the rate limiter, for entries that are addresses |
| ProxyHeaders.WalksAgree | app/core/rate_limit.py:22-55 | the two name the same address unless the peer is trusted and the rightmost untrusted entry is no address |
| ProxyHeaders.WalksAgreeOnAddresses | app/core/rate_limit.py:22-55 | in particular whenever every entry is an address |

## Left out

- ConnectionManagers.ConnectionManager.DisconnectCall: an open socket is disconnected under its own user, as its one caller (`app/api/v1/ws.py:60-92`) does; for any other user the invariant is lost (`WsTheorems.ForeignDisconnectOrphans`).
- ConnectionManagers.ConnectionManager.LockServed: pubsub commands succeed; what a failed subscribe leaves behind is not modelled.
- WsCap.SerialConnectsKeepCap: the cap is stated for connects of a user that do not overlap, because it is false of others (`WsCap.OverlapsIgnoreCap`).
- ConnectionManagers.ConnectionManager.Turn: the writer's queue read and its send are separate steps, which allows more interleavings than the event loop does.
- Presence keys, chat activity, startup, shutdown and the Redis listener of the connection manager: online and offline writes are not ordered with respect to each other, and the listener's timing belongs to the Redis client.
- Progress reports, row counts and argument parsing of the scripts.
- TrackMerges.TrackDb.Run: the grouping queries are parameters, described by `MergePlans.GroupedBy`; SQL itself is not modelled.
- SavedChatsUpgrade.ChatDb.Upgrade: users, NULL senders and columns the migration never names are not modelled; the identity of a new conversation is the next value of a serial.
- JobRuns.Bounded: a message is delivered once per kick, and updates to the row succeed; a crash between a commit and its re-kick, which would lose the job, is not modelled.
- JobLifecycle.PostExecute: how a return value is cut down for `result_summary` (`_result_summary`) is a parameter.
- JobLifecycle.OnError: the label is already a number or absent; an unreadable label counts as absent, as in the source.
- The text of alerts, and the cancellation signal's storage: the signal is an input of each start.
- NameDedupes.NameDb.Upgrade: `str.lower` acts on one character at a time, so final sigma is not modelled; column lengths and the artist columns the migration adds besides are ignored.
- TrailerStrips.ClassifyMessage: a rule is a predicate on a stripped line that is false on the empty line; the regular expressions themselves and the git plumbing are not modelled.
- LyricsFilters.StatusesPartition: the filters on the track itself (search, playlist owner, playable) are independent of lyrics and not modelled.
- PiiScrubbers.NonInterference: dictionary keys are strings; the cache of the key set and the admin keys' contents are not modelled.
- ProxyHeaders.WalksAgree: compares the walks on one list of networks and a non-empty peer; the two settings and the parsing of networks are not modelled.
- Authentication, storage, HTTP middlewares, playback policies and the services in the private core package: single checks or library calls, or not visible here.
