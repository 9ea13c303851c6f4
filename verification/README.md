# Coherence of the desktop client

The desktop client talks to its engine through promises.  While replies are out, the user changes
filters and selections, account mutations start and end, removals run, and background events arrive;
small state machines decide which late reply may still change what is shown.  This project models those
machines and proves what they keep over every interleaving.  Two printer and reader pairs are modelled
beside them: the certificate rule form and the systemd quoting of proof fixtures.

JavaScript runs to completion, so each stretch of code between two `await`s is one atomic step.  A promise
that is out is a token which any later event may settle, with any value or error.  Every component has

- a state datatype and one function for each atomic step,
- an `Event` type, with `Possible` (or `Enabled`) for what the environment may do and `History` (or `Legal`)
  for whole runs,
- an invariant that every step keeps, and theorems over all runs.

Where the source works on objects whose identity matters, classes keep them as objects: the refresh owner's
request objects, compared by reference; the reader's read states, which sit in three maps and outlive them in
the closures of reads still out; and the removal records.  Their methods refine the step functions through an
abstraction that numbers the objects.

| file | component |
|---|---|
| InboxReload.dfy | the coalescing refresh owner |
| MailboxScope.dfy | mailbox revisions, mutation epochs and effect scopes |
| InboxPaging.dfy, InboxPages.dfy, InboxWiring.dfy, InboxProgress.dfy | query epochs, page loads and span runs; what is shown and asked for; the owner's theorems carried over to the Inbox as wired; the disabled controls that keep a request from being stranded |
| ThreadView.dfy, ThreadViewProofs.dfy, ThreadViewTheorems.dfy, ThreadViewEffects.dfy, ThreadViewState.dfy | the thread reader: steps, invariant, theorems, what each operation leads to, objects |
| ThreadHistory.dfy | mutation holds and committed spans over two readers |
| InboxThreadEntry.dfy, InboxThreadWiring.dfy | the binding of the reader to an Inbox row; Inbox and binding together |
| InboxRemoval.dfy, InboxRemovalChain.dfy | the removal client's jobs in a queue; the promise chain that is that queue |
| ConnectQueue.dfy | the refresh loop behind queue events |
| GmailLabels.dfy | the three-read load of Gmail labels |
| CoiRules.dfy | the certificate rule form |
| SystemdQuote.dfy | systemd quoting |

Assumptions about the other side are stated in `Possible`: the host decodes replies to the shape of their
query and admits no vendor choice once a vendor is chosen (desktop/src-tauri/src/engine.rs:1490-1523), new removal keys are new, the ids of one Inbox page differ, and every change of watched labels
raises the account's revision.  Callbacks that notify the display change nothing and do not fail.

One property fails.  The reader takes the thread for body, copy and inventory queries from the messages
page, and neither the reader nor the host compares that thread with the one asked for.
`UnechoedThreadIsFollowed` is a run in which another thread is followed; `BelowAsksForTheSelectedThreadIff`
says exactly when the selected one is, for every such query, and `EchoedThreadIsTheSelectedOne` that pages which name the thread
they were asked for suffice.

## Model

| member | source | states |
|---|---|---|
| `InboxReloads.NoObligationLost` | desktop/src/inboxReload.ts:61-101 | over every interleaving of requests, wakes, cancellations, settlements and environment changes, each accepted request that is still current and not cancelled waits in the pending slot, is served by the owner, or was served by a run begun after it, with an intent at least as large; each slot asks for just what some uncancelled request of its epoch asked for; and a pending request of the current epoch is unscoped exactly when an unscoped obligation is outstanding |
| `InboxReloads.OwnershipNeverRegained` | desktop/src/inboxReload.ts:87-101 | a run that has once seen `current()` false never sees it true again |
| `InboxReloads.OneRunSeesCurrent` | desktop/src/inboxReload.ts:87-101 | any two runs ever begun have different identities, and at most one of them sees `current()` true |
| `InboxReloads.StartsFreshAndStaysBusy` | desktop/src/inboxReload.ts:61-101 | no run starts blocked or stale, and after an accepted request, a wake or the owner's settlement a pending request implies a blocker or a current owner |
| `InboxReloads.RequestsAreTakenOn` | desktop/src/inboxReload.ts:61-71 | a request is taken on exactly when its scope is current; what then waits or has just begun asks for all it asks for, and, when a current run owns the slot, for all that run asks for too |
| `InboxReloads.PendingRestoresTheRunning` | desktop/src/inboxReload.ts:65-66 | in every reachable state the pending request covers the running refresh and every obligation the run serves |
| `InboxReloads.Combine` | desktop/src/inboxReload.ts:11-15 | the least upper bound of two intents in the order first < span(n) |
| `InboxReloads.InboxReload.SynchronizeSlots` | desktop/src/inboxReload.ts:36-39 | on request objects: exactly the stale occupants of the two slots go |
| `InboxReloads.InboxReload.Running` | desktop/src/inboxReload.ts:51-54 | true exactly when some request object ever made owns the slot after synchronising |
| `InboxReloads.InboxReload.EnqueueRequest` | desktop/src/inboxReload.ts:41-49 | the new object is changed on its way into the pending slot and no object already in a slot is |
| `InboxReloads.InboxReload.Submit` | desktop/src/inboxReload.ts:61-71 | on request objects, the outcome and the begun run of a request step; the running object is left as it was started |
| `InboxReloads.InboxReload.WakeUp` | desktop/src/inboxReload.ts:73-85 | on request objects: a blocker returns a copy of the owner's request to the pending slot, otherwise an idle owner starts the pending one |
| `InboxReloads.InboxReload.RunSettled` | desktop/src/inboxReload.ts:94-99 | comparing the settled run's object by reference is comparing identities: only the run that still owns the slot clears it and wakes |
| `MailboxScopes.StaleScopeNeverReturns` | desktop/src/main.ts:1201-1286 | a scope that was current and then was not is never current again, over every sequence of overlapping mutations, missing revisions, account loads and scheduled events |
| `MailboxScopes.OneLiveScope` | desktop/src/main.ts:1219-1235 | a scope passes the test exactly when it is the one an effect decided now would carry |
| `MailboxScopes.ScopeTellsTheHistory` | desktop/src/main.ts:1201-1286 | over every sequence of events a scope is current exactly when no mutation is out and the revision is known, and it is made of the number of mutation stretches and the highest revision heard of |
| `MailboxScopes.MailboxDrivesReload` | desktop/src/main.ts:1182-1187 | every mailbox step is an environment change that the refresh owner's theorems allow |
| `InboxPaging.RowsAnswerOneQuery` | desktop/src/main.ts:2977-3125 | in every reachable state all rows were returned for the recorded query epoch and their ids differ, and every committed span has its target row count or no next cursor |
| `InboxPaging.SpanScopeVouchesForRows` | desktop/src/main.ts:3069-3090 | while the recorded span scope is current, every row on display was requested under exactly that scope |
| `InboxPaging.AppendedRows` | desktop/src/main.ts:3031-3034 | appending a page adds exactly its rows with unknown ids, and every id of either shows once |
| `InboxPaging.NextKeeps` | desktop/src/main.ts:2977-3125 | query changes, page loads, replies, failures, span runs, Load more, mutations and removals each keep the paging invariant |
| `InboxPages.CommittedSpanIsItsPages` | desktop/src/main.ts:3069-3090 | over every history a committed span is what the engine answered page by page: a chain of pages each asked for at the cursor of the one before, from none on, all for the epoch of the commit, no page left out, each id where it first came up, with the last page's cursor |
| `InboxPages.MergedIsUnion` | desktop/src/main.ts:3031-3034 | the merged ids of a chain of pages are those of all pages, each once |
| `InboxPages.RepliesAreShown` | desktop/src/main.ts:3016-3037 | a current first page leaves exactly its ids in order and its cursor, a current append leaves the old rows followed by the page's unknown ids in order and its cursor, any other reply leaves rows and cursor as they were; new rows carry the epoch and scope they were asked under |
| `InboxPages.FailuresShow` | desktop/src/main.ts:2998-3015 | a current first page that fails takes the cursor away and no row; any other failure changes neither |
| `InboxPages.RemovalsShow` | desktop/src/main.ts:2883-2963 | a removal leaves all rows, all but the deleted one in their places, or none, and only a completed Clear takes the cursor |
| `InboxPages.FiltersShow` | desktop/src/main.ts:2721-2759 | a change of account or sender clears rows and cursor, any other filter keeps both, and no page asked for before is live after it |
| `InboxPages.OthersShowTheSame` | desktop/src/main.ts:2977-3125 | no event but pages, their failures, filters and removals changes a row or the cursor |
| `InboxPages.ResetStops` | desktop/src/main.ts:4630-4636 | a lost configuration blocks, retires the epoch and the live load and empties both slots, and no row changes |
| `InboxPages.MoreIsAskedFor` | desktop/src/main.ts:3104-3105 | Load more asks for the page behind the cursor on display exactly when no current refresh runs, its scope is current, nothing blocks and there is more |
| `InboxPages.RunsFillTheirSpan` | desktop/src/main.ts:3069-3090 | a run back from a page is over when refused or overtaken, asks for the page behind the cursor while short of its span, and otherwise commits what is shown, vouched for exactly when the scope it began under is current |
| `InboxPages.LoadsComeBack` | desktop/src/main.ts:2977-3066 | a current page goes on to its capabilities; any other end of a load reaches just the run it serves, with true only once the capabilities have settled |
| `InboxPages.RequestsBegin` | desktop/src/main.ts:1182-1191 | a request for the present query begins at once with a first page and the mailbox scope of the moment when nothing blocks or runs, and waits otherwise |
| `InboxPages.WakesBegin` | desktop/src/main.ts:1193-1199 | a wake begins what waits exactly when nothing blocks, nothing runs and what waits is current; under a blocker what ran waits, with no smaller intent |
| `InboxPages.EventsReachTheOwner` | desktop/src/main.ts:3098-3125 | filters, a ready configuration, the end of a removal and wishes for rows become requests of the epoch they leave: for the rows on display if these answer the query, for a first page otherwise |
| `InboxPages.EventsWakeTheOwner` | desktop/src/main.ts:1254-1286 | mutations, the beginning of a removal and the end of the owner's run wake the owner; a removal and the first of overlapping mutations retire the live load |
| `InboxWiring.InboxForgetsNoRefresh` | desktop/src/main.ts:1182-1199 | the scheduler's promise for the Inbox as wired: along every run of paging, filters, mutations and removals no still-current refresh request is lost, what waits behind a run asks for all the run does, and neither scope nor intent is widened, with nothing assumed about epochs, scopes and blockers |
| `InboxWiring.InboxOwnershipNeverRegained` | desktop/src/main.ts:3069-3090 | in the Inbox as wired, a refresh run that saw itself overtaken never owns the refresh again |
| `InboxWiring.StepMirrors` | desktop/src/main.ts:1189-1199 | one step of the Inbox is a legal stretch of the owner's history with the same slots, environment and runs |
| `InboxProgress.NoRequestIsStranded` | desktop/src/main.ts:2866-2876 | with Load more disabled while a load is out, along every run a current pending refresh request has a blocker or an owner whose run is still out |
| `InboxProgress.LoadMoreStrandsIff` | desktop/src/main.ts:3104-3105 | what that flag prevents: reading `running` for Load more strands a current pending request exactly when nothing blocks and the owner is stale |
| `InboxProgress.ControlsFollowTheLoads` | desktop/src/main.ts:2977-3066 | the controls are taken by a load and by a removal, given back by the end of the newest load, the end of a removal and the first mutation outside a removal, and touched by nothing else |
| `InboxThreadWiring.CurrentSourceIsVouchedFor` | desktop/src/main.ts:917-930 | with Inbox and entry wired together, whenever the entry's source is current its message is a row requested under the current query epoch and mailbox scope with nothing blocking, the reader is open on that very message, every resolution on display was asked for it, and all that the reader shows was requested after the binding |
| `ThreadViewTheorems.ContentIsATree` | desktop/src/threadView.ts:126-141 | in every reachable reader state each body and list of copies belongs to a message on display and each inventory to a copy on display |
| `ThreadViewTheorems.ValuesAnswerTheSelection` | desktop/src/threadView.ts:59-95 | every reply that went into a value on display answered the query that the current vendor, account, thread and Inbox origin make, and was requested after the slot was last cleared |
| `ThreadViewTheorems.LateRepliesNeverStored` | desktop/src/threadView.ts:133-141 | no reply requested before a step that left what a slot was asking for is ever stored in it after that step, the resolution included, even when the same selection comes back |
| `ThreadViewTheorems.PagesFormOneChain` | desktop/src/threadView.ts:279-287 | a paged value, vendor choices included, is the concatenation of a chain of replies from the null cursor on, each asked for at the previous reply's next cursor |
| `ThreadViewTheorems.StaleCursorRestartsOnce` | desktop/src/threadView.ts:74-86 | a stale cursor yields one fresh first page with no old item in it, and no read restarts twice |
| `ThreadViewTheorems.HiddenOrHeldShowsNothing` | desktop/src/threadView.ts:246-262 | a hidden or held reader shows nothing and no step that leaves it so calls the client |
| `ThreadViewTheorems.EchoedThreadIsTheSelectedOne` | desktop/src/threadView.ts:315-323 | when every messages page names the thread it was asked for, body, copy and inventory queries are for the selected thread |
| `ThreadViewTheorems.BelowAsksForTheSelectedThreadIff` | desktop/src/threadView.ts:319-382 | a body, copies or an inventory, first page or further one, is asked for under the selected thread exactly when the messages value names that thread |
| `ThreadViewTheorems.UnechoedThreadIsFollowed` | desktop/src/threadView.ts:319-328 | a run of four events from the fresh reader in which a messages page names another thread and the body of that other thread is asked for |
| `ThreadViewTheorems.RefreshAsksOnce` | desktop/src/threadView.ts:254-258 | a refresh makes exactly one call, for the first page of what is selected, or none when reading is not allowed |
| `ThreadViewTheorems.SelectionsAskForThemselves` | desktop/src/threadView.ts:147-230 | each way to select leaves exactly that selected and asks for its first page |
| `ThreadViewEffects.ResolutionSelectsItsThread` | desktop/src/threadView.ts:183-191 | a resolution that still holds, is ready and names a thread selects that thread and vendor and makes one call, its first messages under the Inbox origin, with the vendor if there is one; any other end selects nothing and calls nothing |
| `ThreadViewEffects.ChosenVendorIsResolved` | desktop/src/threadView.ts:194-201 | an offered vendor becomes the chosen one and the origin is resolved under it with one call; any other choice changes nothing |
| `ThreadViewEffects.BackListsThreads` | desktop/src/threadView.ts:231-235 | an Inbox reader is closed without a call; otherwise the vendor's threads are listed again |
| `ThreadViewEffects.ShownReadersRead` | desktop/src/threadView.ts:246-247 | a reader that is shown makes the first call of what is selected, and one that is hidden makes none |
| `ThreadViewEffects.ReleasedReadersRead` | desktop/src/threadView.ts:248-252 | a hold counts one up and calls nothing; its end counts one down and, when asked to, makes the first call of what is selected once none is left |
| `ThreadViewEffects.PagesAreAskedFor` | desktop/src/threadView.ts:279-287 | a first page is read whenever reading is allowed, a further one only at a cursor that leads on, at that cursor, with no read under way and the value kept |
| `ThreadViewEffects.RootPagesAreAskedFor` | desktop/src/threadView.ts:289-306 | threads are listed for the vendor and account outside the Inbox, messages for the selected thread under its selector |
| `ThreadViewEffects.MoreVendorsAreAskedFor` | desktop/src/threadView.ts:158-182 | more vendors are asked for at the cursor of the choices on display and only then |
| `ThreadViewEffects.MessagesAreSelected` | desktop/src/threadView.ts:308-323 | the selector of a message exists exactly for a message on display in a thread the selection can name, and names the page's thread and the Inbox origin |
| `ThreadViewEffects.BodiesOpen` | desktop/src/threadView.ts:325-336 | a fresh state takes the body's place and the body is asked for with one call, or nothing happens |
| `ThreadViewEffects.CopiesOpen` | desktop/src/threadView.ts:342-347 | the message's copies and inventories go, a fresh state takes their place and their first page is asked for, or nothing happens |
| `ThreadViewEffects.InventoriesOpen` | desktop/src/threadView.ts:371-376 | for a copy on display a fresh state takes the inventory's place and its first page is asked for |
| `ThreadViewEffects.OpenPagesAreAskedFor` | desktop/src/threadView.ts:349-382 | a page of copies or of an inventory is read into the state in its slot, for the message's selector, or nothing happens |
| `ThreadViewEffects.ClosedSlotsAreGone` | desktop/src/threadView.ts:338-387 | closing lets go of exactly what it names, copies with their inventories, and touches nothing else |
| `ThreadViewEffects.RepliesAreStored` | desktop/src/threadView.ts:85-87 | a current reply is stored alone or after the value it continues, and any other reply changes no value |
| `ThreadViewEffects.FailuresAreShown` | desktop/src/threadView.ts:74-93 | a failed current read loses its value and shows the error, or restarts with the same query's first page on a stale cursor of a load-more; any other failure changes nothing |
| `ThreadViewEffects.LostSelectionsAreShown` | desktop/src/threadView.ts:264-277 | a lost Inbox selection blanks the reader and shows the error in place of the resolution, and no other error does |
| `ThreadViewEffects.EntryStays` | desktop/src/threadView.ts:133-387 | no event of the reader but opening a row makes it open on another Inbox message |
| `ThreadViewProofs.NextKeeps` | desktop/src/threadView.ts:133-387 | every operation and settlement keeps the reader sound |
| `ThreadViewStates.ThreadViewState.ResetEach` | desktop/src/threadView.ts:126-131 | the loops over the three maps, in any order, reset exactly the objects under the given slots, and no object that a map has let go of |
| `ThreadViewStates.ThreadViewState.DropSlots` | desktop/src/threadView.ts:126-131 | with read states as objects in three maps, letting slots go refines the one-table step |
| `ThreadViewStates.ThreadViewState.ClearAllChildren` | desktop/src/threadView.ts:126-131 | all three maps are emptied and every state in them reset |
| `ThreadViewStates.ThreadViewState.ClearInventoryOf` | desktop/src/threadView.ts:355-360 | just the inventories of one message go |
| `ThreadViewStates.ThreadViewState.Invalidate` | desktop/src/threadView.ts:133-141 | refines the invalidation step and keeps the reader sound |
| `ThreadViewStates.ThreadViewState.IssueCall` | desktop/src/threadView.ts:264-266 | the waiting read holds on to its state object, which the abstraction knows by identity |
| `ThreadViewStates.ThreadViewState.BeginRead` | desktop/src/threadView.ts:59-73 | refines the start of a read |
| `ThreadViewStates.ThreadViewState.ReadPage` | desktop/src/threadView.ts:279-287 | refines a paged read: guard, clearing below, call |
| `ThreadViewStates.ThreadViewState.AttachState` | desktop/src/threadView.ts:325-330 | a fresh object in its place, with every other object and map entry as it was |
| `ThreadViewStates.ThreadViewState.OpenBody` | desktop/src/threadView.ts:325-336 | an open body is replaced by a fresh object while reads of the old one may still be out; keeps the reader sound |
| `ThreadViewStates.ThreadViewState.CloseBody` | desktop/src/threadView.ts:338-340 | the object goes out of its map, reset, so that a read still out is late; keeps the reader sound |
| `ThreadViewStates.ThreadViewState.OpenCopies` | desktop/src/threadView.ts:342-347 | copies and inventories go and a fresh object takes their place; keeps the reader sound |
| `ThreadViewStates.ThreadViewState.LoadCopies` | desktop/src/threadView.ts:349-353 | refines a page of open copies; keeps the reader sound |
| `ThreadViewStates.ThreadViewState.CloseCopies` | desktop/src/threadView.ts:362-365 | the copies and all inventories of the message go; keeps the reader sound |
| `ThreadViewStates.ThreadViewState.OpenInventory` | desktop/src/threadView.ts:371-376 | refused for a copy not on display; keeps the reader sound |
| `ThreadViewStates.ThreadViewState.LoadInventory` | desktop/src/threadView.ts:378-382 | refines a page of an open inventory; keeps the reader sound |
| `ThreadViewStates.ThreadViewState.CloseInventory` | desktop/src/threadView.ts:384-387 | one inventory goes; keeps the reader sound |
| `ThreadViewStates.ThreadViewState.OnReply` | desktop/src/threadView.ts:85-87 | a reply reaches the object its read was started on, in a map or not: stored there if current, lost otherwise; keeps the reader sound |
| `ThreadViewStates.ThreadViewState.OnFailure` | desktop/src/threadView.ts:264-277 | a lost Inbox selection blanks every object before the read itself sees the error; keeps the reader sound |
| `ThreadViewStates.ThreadViewState.OnRejection` | desktop/src/threadView.ts:74-93 | a stale cursor restarts a load-more once on the same object, any other error clears; keeps the reader sound |
| `ThreadHistories.HoldsAgreeAndBlankBothReaders` | desktop/src/threadHistory.ts:53-67 | the three counters agree after every synchronous step and while anything is held both readers are blank |
| `ThreadHistories.CommittedSpansRefreshOnce` | desktop/src/threadHistory.ts:31-67 | each refresh of a committed span answers one commit that nothing called off, at zero holds and never twice; once nothing is held and every `endMutation` has run out no commit is left waiting |
| `ThreadHistories.SpansRefreshTheReader` | desktop/src/threadHistory.ts:41-67 | a step is marked as a refresh of a committed span exactly when it is a commit at zero holds or a tail at zero holds with a span standing; exactly then the Inbox reader is cleared and makes the first call of what it has selected, and any other commit or tail leaves it unchanged |
| `ThreadHistories.DispatchReachesBothReaders` | desktop/src/threadHistory.ts:19-67 | what a view change, a refresh, a cleared selection, a preparation, a hold and its end ask of each of the two readers |
| `InboxThreadEntries.OldRepliesNeverShowAfterRenewal` | desktop/src/inboxThreadEntry.ts:91-109 | no reply requested before the binding was last set or renewed is on display in any reachable state, although the source predicate may have gone from false back to true |
| `InboxThreadEntries.RenewalRebinds` | desktop/src/inboxThreadEntry.ts:97-109 | a renewal takes the snapshot's scope, puts every earlier call before the binding, and the source is current at once exactly when nothing blocks |
| `InboxThreadEntries.ReaderIsOpenOnTheBoundRow` | desktop/src/inboxThreadEntry.ts:79-95 | along every history the reader is open on the origin the entry is bound to, and may read exactly when the entry's source is current |
| `InboxThreadEntries.RowsOpenIff` | desktop/src/inboxThreadEntry.ts:74-95 | a row opens exactly when the Inbox is configured, in view, unblocked and checked under the current scope and query with that row among its rows; then the entry is bound to it and one call resolves that row's message unless a hold forbids reading |
| `InboxThreadEntries.RetriesOpenTheBoundRow` | desktop/src/inboxThreadEntry.ts:111-119 | the newest retry of an entry that is current makes one call, the resolution of the bound origin, and any other end of a retry changes nothing |
| `InboxThreadEntries.BackUnbinds` | desktop/src/inboxThreadEntry.ts:121-124 | going back unbinds the entry and closes the reader without a call |
| `InboxRemovalChains.JobsRunOneAtATime` | desktop/src/inboxRemoval.ts:94-98 | over every run of the promise chain at most one job runs, and links run in the order of their calls |
| `InboxRemovalChains.FirstWaitingLinkStarts` | desktop/src/inboxRemoval.ts:94-98 | a rejected job never breaks the chain: unless a job runs, the first waiting link starts at once or as soon as the absorbed promise before it settles |
| `InboxRemovalChains.ChainIsQueue` | desktop/src/inboxRemoval.ts:94-98 | every run of the chain is a run of a queue with one job at a time |
| `InboxRemovalChains.RemovalsAreSafe` | desktop/src/inboxRemoval.ts:100-157 | over every run of the chain with lost replies and concurrent clears, deletes and recoveries: each key is mutated at most once and only after its own prepare, no status read of a prepared key precedes its mutation, and a key is acknowledged only once a completed receipt for it is published |
| `InboxRemovalChains.PressesBecomeCalls` | desktop/src/inboxRemoval.ts:134-160 | over every run of the chain the prepare calls made, followed by the jobs still waiting, are the presses in their order: Clear as Clear of everything, Delete as Delete of its message |
| `InboxRemovalChains.CallsCarryTheirPress` | desktop/src/inboxRemoval.ts:112-157 | every mutation is sent with the kind and message prepared under its key, right after that key came back, and every status is read with the kind and message of the mutation just sent or of a listed receipt |
| `InboxRemovalChains.PreparedAreSentAndCompletedAcknowledged` | desktop/src/inboxRemoval.ts:100-157 | the entry after a prepared key is its mutation and the entry after a completed receipt is its acknowledgement, unless the job still waits for the display, and nothing else is acknowledged |
| `InboxRemovalChains.JobsNeverMix` | desktop/src/inboxRemoval.ts:94-157 | the calls of two jobs never interleave, and a lost mutation reply is followed at once by a status read of the same key and by no further mutation of it |
| `InboxRemovalChains.AtMostOneMissingClear` | desktop/src/inboxRemoval.ts:100-177 | at most one Clear is on record as missing and its key is the newest Clear's |
| `InboxRemovalChains.RecoveryReadsEveryReceipt` | desktop/src/inboxRemoval.ts:162-177 | once a saved list has arrived and no recovery is under way any more, every receipt in it has been read by status since, whatever actions and failures came between |
| `InboxRemovals.RecoveriesQueueReads` | desktop/src/inboxRemoval.ts:162-177 | a recovery is begun by one job that reads the saved list unless one is under way, and then queues one read for each receipt in order, each when the one before is over |
| `InboxRemovals.OutcomesAreRecorded` | desktop/src/inboxRemoval.ts:100-142 | what each step does to the records and the newest Clear: receipts recorded as they came, failed reads as missing or unreadable unless superseded, missing Clears dropped by a newer one, and no other change |
| `InboxRemovals.LastClearIsLast` | desktop/src/inboxRemoval.ts:169-171 | the newest Clear of a saved list is its last one |
| `InboxRemovals.RemovalRecords.NewClear` | desktop/src/inboxRemoval.ts:136-141 | the loop leaves no missing Clear on record and touches no other record |
| `InboxRemovals.RemovalRecords.StatusUnavailable` | desktop/src/inboxRemoval.ts:120-129 | a superseded missing Clear leaves no record, anything else leaves just its own, and only the newest Clear can be on record as missing |
| `CoiRules.EditableCoiFields` | desktop/src/coiRules.ts:78-110 | returns fields f exactly when the rule may be edited, f is complete and the definition printed for f is the saved one up to the order of its conditions |
| `CoiRules.ReopensIff` | desktop/src/coiRules.ts:49-66 | a printed definition reads back exactly when the summary allows editing and sender, mailbox and provider strings are not empty, and then as the fields it was printed from |
| `CoiRules.EditableMeans` | desktop/src/coiRules.ts:80-81 | a rule may be edited exactly when it is valid, not a system rule, and its version is a whole number from 1 to the largest safe integer |
| `CoiRules.OneReading` | desktop/src/coiRules.ts:78-110 | no rule is printed by two different forms |
| `CoiRules.HasKeysIsExact` | desktop/src/coiRules.ts:72-75 | count and presence of distinct names pin the key set down |
| `CoiRules.FrameForm` | desktop/src/coiRules.ts:78-92 | the tests before the loop accept exactly what is printed for some fields and find those fields |
| `CoiRules.RefusedIsNotPrinted` | desktop/src/coiRules.ts:97-102 | a condition refused by the loop is one that no complete form prints beside those already taken |
| `SystemdQuotes.Quote` | scripts/packaged_proof_environment.py:58-75 | a reader that keeps no null bytes gets the value back exactly when it has none, a reader that keeps them always does, the result is bare exactly when no character is below 32, is 127 or is one of the listed specials, it is framed by its mode's quotes otherwise, and it holds no control character |
| `SystemdQuotes.QuotedDecodes` | scripts/packaged_proof_environment.py:58-75 | decoding undoes quoting in each mode, by a reader that takes no bare expansion character in double quotes; a reader that keeps no null bytes refuses exactly the values that have one |
| `SystemdQuotes.NullByteIsNotKept` | scripts/packaged_proof_environment.py:69-70 | the value of one null byte, where the two readers differ |
| `SystemdQuotes.ScanBody` | scripts/packaged_proof_environment.py:63-75 | whatever text follows, reading stops at the closing quote and not before it |
| `SystemdQuotes.OctalReads` | scripts/packaged_proof_environment.py:69-70 | three octal digits are read back whole, whatever digit comes next |
| `SystemdQuotes.QuotingIsInjective` | scripts/packaged_proof_environment.py:58-75 | two values never share a quoted form, null bytes or not |
| `ConnectQueues.EveryEventIsServed` | desktop/src/main.ts:3127-3139 | at most one loop is alive, and each event is followed by a refresh begun after it unless a live loop still carries the wish; at rest every event has been |
| `ConnectQueues.WishIsServedWithinTwoSteps` | desktop/src/main.ts:3127-3139 | a wish is served by the loop's next settlement, or by the `finally` after one that throws, however many events come between |
| `ConnectQueues.EventsDo` | desktop/src/main.ts:3127-3139 | a heard event begins a refresh when idle and leaves a wish otherwise, a settled refresh begins the next one for a wish unless it threw, and the `finally` begins a loop for a wish or leaves the queue idle |
| `ConnectQueues.RefreshesAreConserved` | desktop/src/main.ts:3127-3139 | over every run the refreshes begun are those settled and the one still out, and no more begin than events were heard |
| `GmailLabels.VerifiedShowsOneState` | desktop/src/main.ts:3486-3556 | whenever the catalog is verified, the newest load for the account in view verified it, its three reads saw one engine state, and the revision, watched labels and catalog marks shown are that state's |
| `GmailLabels.VerifiesIff` | desktop/src/main.ts:3230-3240 | a third reply verifies exactly when its guard holds, all three reads saw the same engine state and the catalog is current |
| `GmailLabels.OvertakenLoadsAreSilent` | desktop/src/main.ts:3216-3228 | a load that is no longer the newest, or whose account left the view, changes nothing but itself |
| `GmailLabels.UndisturbedLoadVerifies` | desktop/src/main.ts:3486-3556 | a load that nothing disturbs and whose three replies carry one revision, the last with a current catalog, ends verified with that catalog, those labels and that revision shown |
| `GmailLabels.LoadsGoOn` | desktop/src/main.ts:3497-3528 | the first reply of the newest load is shown at once and each reply leads to the next call |
| `GmailLabels.LastReplyIsShown` | desktop/src/main.ts:3529-3556 | the last reply of the newest load shows everything as verified, or the watched labels alone with no revision to edit at |
| `GmailLabels.FailedLoadsFallBack` | desktop/src/main.ts:3557-3590 | a failed newest load drops the catalog and lists the labels once more, shown unverified; if that fails too the labels first read are shown with none usable |
| `GmailLabels.LoadsBegin` | desktop/src/main.ts:3486-3493 | a load begins as the newest, for the account in view, and nothing counts as verified meanwhile |
| `GmailLabels.AccountsChange` | desktop/src/main.ts:3448-3484 | another account leaves nothing of the old one on display and none of its loads the newest |
| `GmailLabels.EditsLoadAnew` | desktop/src/main.ts:3595-3643 | an edit that settles for the account in view has the labels loaded anew, and otherwise nothing happens |

## Left out

- DOM rendering, focus, scrolling, status text and `inboxPageState`: display only, but for the disabled state of Load more.
- Tauri `invoke`, `listen` and dialogs: they appear only as tokens that the environment settles.
- The Python engine, its store and Connect locking: only the assumptions named above are made of them.
- The boolean that `InboxReload.request` resolves to: no modelled code decides anything by it.
- The module variables of desktop/src/main.ts, `ThreadHistory`, `InboxThreadEntry` and the reader's selection operations are modelled on values: their in-place forms assign plain fields and call what is modelled, so they would add only easy members.  Aliasing between the two readers of `ThreadHistory` is not modelled.
- Null bytes in quoted values: no standard's promise is claimed for them; the round trip through a reader that drops or refuses them is stated as the condition that the value has none.
- `threadBodyDisplay`, `threadBodyStateLabel` and the status texts of removals: table lookups and range tests.
- Progress of Inbox reads: the source predicate may turn false without a reset, so a read may stay in `loading` and no claim is made that it leaves it.
- Balanced use of mutation holds: `finishOperation` runs once at startup with no matching begin, so only the equality of the counters is claimed, not that they count open operations.
- `CoiRequestGate`, `coiControlState`, `providerKey` and `isCoiProvider`: single-branch functions.
- Key order of JSON objects and numbers outside the reals: the rule reader depends on neither.
- `unit_records` and `render_unit_records`: dictionary filling around file reads.
- The `\c` and `\x` escapes of the dollar quoting mode: the decoder refuses them, the encoder never writes them.
- Windows packaging, proof harnesses, benchmarks, calendars and vendor tables.
