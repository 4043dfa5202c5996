# A verified model of the Jevernetes log-triage engine

Jevernetes follows pod logs, frames them into events, asks a provider what they mean, reuses
answers where that is safe, and turns what matters into incidents and notifications. This project
models the parts of it that keep state, and proves what they are for.

Each component has a specification on values and, where the source works step by step, a class or a
method that takes the same steps. The contract of such a method equates its new state with the
specification's function of the old one; the theorems are about those functions, over every
interleaving, run or input. Faults, clock readings, provider answers, schedules and crash points are
parameters, so the theorems hold for all of them.

| component | files |
|---|---|
| the replay filter of a followed log | `Replay` |
| the byte framer and its key-marker window | `Parser`, `Pem` |
| what its frames say of the lines, and that private keys stay out of them | `Framing`, `Secrets` |
| instants with a wall and a monotonic part, judgments and their bounds | `Clock`, `Verdict`, `Bounds` |
| events, families, dossiers | `Events`, `Dossiers` |
| the in-memory verdict table; when it serves and when it asks | `Grouper`, `Serving` |
| durable rows and the process-local registry of their lifetimes; how long a row is found | `Tables`, `VerdictStore`, `History`, `Lasting` |
| the durable cache in front of the provider; whose answer each dossier gets | `CachedJudge`, `Asked`, `Calls` |
| one batch: grouping, cache mode, downgrade, publication, fan-out | `Engine`, `Batches` |
| what a dossier is about, and which answer each line of a batch leaves with | `Evidence`, `Answers`, `Lines` |
| whole runs of batches and restarts | `Lifetime`, `Rollback`, `Origins` |
| the learning lane, whom it hears and when it asks; both lanes together | `Learning`, `Teaching`, `Lanes` |
| incidents, escalation, the transaction, delivery | `Policy`, `Incidents`, `Controller`, `Outbox`, `Rates` |
| which pages must arrive, when they are tried again, which rows give way | `Pages`, `Retries`, `Evictions` |
| JSON trees, their paths, flattening, reviewed rules | `Trees`, `Flatten`, `ReviewedRules` |
| word and field masking; exactly which lines merge | `Masking`, `Merging` |
| the review projection | `Reviews`, `Projection` |
| provider budget and what a call costs | `Budget`, `Spending` |
| parallel judging, descriptor gate, volume migration | `Parallel`, `Gate`, `Volume` |

The central results read as follows.

* **No verdict is renewed.** `Lifetime.CachedReuseIsJustified` and `Lifetime.DurableReuseIsJustified`
  take any run of batches and process restarts, with wall clocks that step anywhere, evictions,
  failing statements, slow providers and any configured TTL. A verdict that is reused comes from a
  dispatch for the same family, the wall reading is inside that dispatch's original window, and, in
  the process that made it, its TTL has not elapsed on the monotonic clock; and every such dispatch was
  answered by the provider for that family (`Origins.HistoryIsAnswers`).
* **Every send is accounted for.** In every run of the outbox, with crashes anywhere, an identity is
  confirmed at most once and never sent again after that; it is sent once for its confirmation and
  once more for each send that ended in a crash, a rejection or a lost report, at most eight times in
  all; and an enqueued identity is still pending, was confirmed, or was tried eight times
  (`Outbox.SendsAreAccounted`, `Outbox.ConfirmedIsFinal`, `Outbox.OutboxConserves`). A crash can
  repeat a delivery, as the source says (`internal/controller/sink.go:71`). `Controller.AllOrNothing`
  covers one transaction and `Rates.NotificationRateBound` the rate.
* **Every line once.** `Replay.ExactlyOnce` rebuilds the log from overlapping reconnections, with the
  exact condition under which no gap is reported; `Parser.ChunkIndependence` makes the framed events
  independent of how the bytes were read.
* **Every answer reaches its lines, and no secret does.** The first line of a group leaves with the opinion
  that was answered for its dossier, and the others share it exactly when the table now holds it
  (`Answers.LinesGetTheAnswer`); a published verdict is served until its audit is due
  (`Serving.ServedUntilAudit`); an event that must page leaves exactly one note (`Pages.PageArrives`). What an
  open private key contains makes no difference to any frame (`Secrets.KeysDoNotLeak`).
* **Masking merges exactly what it should.** Two lines have one template if and only if they differ only in
  words that are volatile in the same way (`Merging.LinesMergeExactly`, `Merging.ObjectsMergeExactly`).

Conventions. Digests are modelled by constructors, so equal digests mean equal contents; where a digest
stays a function, a theorem asks only that it tells the contents at hand apart (`Projection.Separates`).
Regular expressions, redaction, JSON encoding and time parsing are function parameters;
where a proof needs a fact about them it is a named predicate (`Masking.MarkersAreInert`,
`Masking.BlanksOnly`, `Masking.Decodes`, `Masking.ObjectsOpen`,
`Merging.ContextSurvives`). A SQL table is a map with its stored counter, and a
transaction commits a new value of it or none. Floating-point numbers are reals. A map that the source
iterates is taken in an arbitrary order.

Where the code differs from what its comments or its shape suggest, the code is modelled:

* The learning lane clears its table when the clock went back (`internal/analysis/learning.go:112`).
  Its readings keep their monotonic part, so within one process that test is never true; entries end
  by elapsed time alone (`Learning.MonotoneReadingsNeverRollBack`, `Learning.TeacherAuthorityExpires`).
* A review projection is reversible except in two places: an original judgment that is no object is
  lost when an event is marked and then released (`Reviews.EventComposes` says exactly when), and the
  completeness flag stays cleared (`Projection.CompletenessComposes` says exactly when,
  `Projection.CompletenessIsLost` shows a report).
* A count smaller than the events it stands for is clamped at zero and then does not come back
  (`Projection.CountsComposeExactly`, and `Projection.RoutineComposesExactly` for the routine count).
* The private-key state depends on how the bytes were read when a key marker is longer than the
  128-byte window and one byte (`Parser.MarkerLengthIsExact`) or shares bytes with another one
  (`Parser.OverlapDependsOnReads`).
* Masking a template again can change it: a line that is not JSON can become JSON when its words are
  joined with blanks (`Masking.LineTemplateTwice`, `Masking.JoiningMakesAnObject`); a line that does not begin with a brace
  is safe (`Masking.PlainTemplateTwice`).

## Model

| member | source | states |
|---|---|---|
| Replay.ExactlyOnce | internal/kube/cursor.go:18-71 | For any log in time order and any sequence of broken connections, each resent from the whole second of the last accepted stamp: no gap is reported if and only if the bounded counters can hold every stamp of the prefix up to the furthest line reached, and when none is reported the accepted lines are that prefix, in order and each once. |
| Replay.FewDistinctLinesFit | internal/kube/cursor.go:61-68 | At most 4096 distinct lines a stamp is enough for the counters to hold, at every length below the 64-bit limit. |
| Replay.ConnectionFaithful | internal/kube/live.go:140-153 | One connection that starts anywhere at or before the furthest line, and breaks anywhere, leaves exactly the longer of the two prefixes accepted. |
| Replay.NewLine | internal/kube/cursor.go:44-70 | A line beyond everything seen is accepted, and it is remembered if the counters have room and reported as a gap if not. |
| Replay.OverflowIsReported | internal/kube/cursor.go:61-64 | The 4097th distinct line of one stamp is let through, changes nothing in the filter, and is reported. |
| Replay.Cursor.Reconnect | internal/kube/cursor.go:18-24 | The maps of counters become what the multisets of the specification become when a connection is reopened. |
| Replay.Cursor.AcceptLine | internal/kube/cursor.go:25-71 | The code over maps of bounded counters decides, remembers and reports exactly as the filter over multisets, untimestamped, partial and out-of-order lines included. |
| Replay.Follow | internal/kube/live.go:140-153 | The reconnect loop over the class delivers exactly the prefix of the log that was reached, with the exact condition for silence. |
| Replay.LinesOutOfTurn | internal/kube/cursor.go:25-45 | What happens to a line without a stamp, cut short or earlier than the last: what is remembered stays, and it is let through and reported, except that a line of the second asked for is dropped while the cursor catches up. |
| Replay.OnlyReplaysAreDropped | internal/kube/cursor.go:25-71 | A line is dropped only as a copy that was counted before the break, or as an earlier one of the second that was asked for. |
| Grouper.StaleForever | internal/analysis/group.go:183-201 | A ticket that was handed out and is not current never becomes current again in any run, publishing or invalidating with it changes nothing, and residents never exceed the capacity. |
| Grouper.RunKeeps | internal/analysis/group.go:152-270 | Over any run the table keeps its bounds, generations are unique and never decrease, and nothing makes an old ticket current. |
| Grouper.RollbackNeverReuses | internal/analysis/group.go:202-223 | Once an observation that is not vetoed has seen a wall time, no later observation with an earlier wall reading is served a verdict, for any family, evicted and recreated ones included; it is told to reassess. |
| Grouper.EvictedOne | internal/analysis/group.go:186-196 | Eviction removes exactly the one resident that was used longest ago. |
| Grouper.AdmittedKeepsInv | internal/analysis/group.go:179-201 | Admission stays within capacity and every ticket afterwards existed before or carries a new, larger generation. |
| Grouper.Grouper.Observe | internal/analysis/group.go:152-233 | One observation changes the table and answers as the specification says: identity, eviction, rollback mark, audits, expiry, refresh. |
| Grouper.Grouper.Publish | internal/analysis/group.go:234-264 | A verdict is stored only for a current, not vetoed ticket, a reusable judgment and valid bounds; otherwise the table is unchanged. |
| Grouper.Grouper.Invalidate | internal/analysis/group.go:266-272 | A current ticket loses its verdict; any other ticket changes nothing. |
| Grouper.Grouper.Veto | internal/analysis/group.go:147-151 | Vetoed identities accumulate and nothing else changes. |
| Grouper.Grouper.FindOldest | internal/analysis/group.go:187-194 | The scan over the map in any order finds the resident used longest ago. |
| Serving.ServedUntilAudit | internal/analysis/group.go:223-262 | After a publication, undisturbed observations of the family at readings inside its bounds are served that very judgment: all of them without adaptive auditing, and with it all but the last of the interval, which is sent to be audited. The interval is 32 for an important verdict; for a routine one it is twice the one before, at least 32 and at most the configured one. |
| Serving.OverdueIsNotServed | internal/analysis/group.go:219-262 | The converse: out of its bounds, or once the time to live has elapsed since publication, the verdict is not served and the family is told to ask again. |
| Serving.MissesAreTold | internal/analysis/group.go:204-232 | An observation without a verdict is told why: vetoed, behind the wall mark, out of its bounds, or new. |
| Serving.ExpiredStaysExpired | internal/analysis/group.go:214-222 | A ticket told to ask again is told so on every later observation until something is published for it. |
| Serving.PublishedExactly | internal/analysis/group.go:234-264 | What publishing leaves: the verdict as it is and the line it came from, or no verdict; no other family, counter or mark changes. |
| Serving.RefusalStartsOver | internal/analysis/group.go:239-263 | A judgment that may not be reused takes the verdict away and starts the audit intervals over. |
| Serving.InvalidatedIsNotServed | internal/analysis/group.go:266-272 | A verdict that was taken back is not served in any run that publishes nothing for its ticket. |
| Serving.NothingPublishedBehind | internal/analysis/group.go:212-246 | An answer that arrives at a wall time before the last observation of its family is not published. |
| Serving.VetoIsForGood | internal/analysis/group.go:147-151 | In every run after a veto the family is never served and nothing is published for it. |
| Serving.FamiliesAre | internal/analysis/group.go:152-178 | Two lines have one family exactly when both are eligible, have one baseline, and either one reviewed template in one source, or none and one masked text in one workload (drain) or one text in one source (exact). |
| Serving.LinesWithoutFamily | internal/analysis/group.go:152-168 | A line has a family exactly when grouping is on, nothing is wrong with it and, under the semantic strategy, a reviewed template applies; otherwise the reason says which. |
| Bounds.ValidAndReusable | internal/provider/schema.go:79-89 | The opinions that pass validation are the ones of the schema, and of those the reusable ones are decided, not about safety or an unknown kind, and at least 0.7 sure three times. |
| Bounds.LifetimeOfAnAnswer | internal/controller/judge.go:70-86 | A stamped answer is valid from the wall second it was asked at until the end of its lifetime by either clock. |
| VerdictStore.AuthorityOnlyShrinks | internal/controller/store.go:261-362 | Two hits on one row in one process, with any calls between them that do not store a new verdict for it: the later one expires no later by either clock and under any TTL, it is valid when returned, the row keeps its place in the registry as long as it is stored, and the registry stays within 10000 keys. |
| VerdictStore.PublishedBoundsHold | internal/controller/store.go:261-362 | After a verdict was published, and whatever calls follow that do not store a new one for its row, a hit keeps inside both bounds it was published with. |
| VerdictStore.HitValid | internal/controller/store.go:320-362 | Every hit satisfies the validity test at its own instant and carries bounds of both clocks inside the window of its row. |
| VerdictStore.HitIsHeld | internal/controller/store.go:340-362 | A hit never outlives the authority held before it, and becomes the authority itself. |
| VerdictStore.Store.PutVerdict | internal/controller/store.go:261-297 | Storing a verdict, with every statement failing or not, changes rows, counters and registry as the specification says. |
| VerdictStore.Store.DeleteVerdict | internal/controller/store.go:298-309 | Deleting a row also ends its authority in the process, unless the statement fails. |
| VerdictStore.Store.Lookup | internal/controller/store.go:311-362 | A lookup answers and updates the registry as the specification says: window test, anchoring to both clocks, narrowing, and failing closed when the registry is full. |
| History.FoundGrounded | internal/controller/store.go:311-362 | A durable hit is grounded in the dispatch its row came from, in this process or an earlier one, and is valid when returned. |
| History.HitNarrows | internal/controller/store.go:340-361 | A hit narrows the authority its key had. |
| History.StoredGrounded | internal/controller/store.go:261-297 | Storing the answer to a dispatch, with the lifetime that began at the dispatch, keeps every row grounded. |
| History.RestartGrounded | internal/controller/store.go:26-35 | A restart forgets the registry and keeps every row grounded in its own dispatch. |
| History.ValidIsJustified | internal/event/event.go:44-51 | A grounded judgment that passes the validity test is inside the wall window of its dispatch and, if this process made it, inside its TTL on the monotonic clock. |
| Lasting.StoredIsFound | internal/controller/store.go:261-362 | A verdict that was stored and still has its row, with other keys used in any way and its own looked up at any readings, is found with its own opinion exactly when the wall clock is not behind the last lookup that found it, its window has not ended, and the elapsed time that was left at the dispatch and at each of those lookups is not over. |
| Lasting.SteadyMarks | internal/controller/store.go:340-361 | On clocks that run evenly that means until the end of the window, however often it was looked up. |
| Lasting.StoresExactly | internal/controller/store.go:261-297 | What is stored: a reusable verdict with a time to live of up to a week, with exactly its opinion, its seconds and its authority; without room in the registry the old row is deleted instead. |
| Lasting.LookupsExactly | internal/controller/store.go:311-362 | What a lookup finds, as windows of the row and of the held authority, and what it deletes, forgets and leaves alone. |
| Lasting.DeletedIsGone | internal/controller/store.go:298-309 | A deleted row and its authority are gone together and no lookup finds it, or the statement failed and nothing changed. |
| Lasting.RestartFinds | internal/controller/store.go:311-362 | The first lookup after a restart finds a reusable row exactly while the wall clock is inside its window, with a deadline at the end of that window. |
| CachedJudge.ReassessedRowsAreGone | internal/controller/judge.go:41-64 | When the provider is asked, no durable row is left for any dossier that is to be reassessed, and none of them was answered from a row. |
| CachedJudge.IntakeQueue | internal/controller/judge.go:25-66 | The queue, the indices and the keys describe the same dossiers, in order, and every dossier is either queued or answered from its row. |
| CachedJudge.JudgedGrounded | internal/controller/judge.go:22-97 | A whole call keeps rows and registry grounded and answers every dossier, in order, with a judgment whose bounds come from a dispatch in the history. |
| CachedJudge.DurableHitsJustified | internal/controller/judge.go:55-64 | Every answer taken from a row is justified at the reading of the call by a dispatch for its own family. |
| CachedJudge.Judge | internal/controller/judge.go:22-97 | The two loops over the store do what the specification says, faults and cancellations included. |
| CachedJudge.Queue | internal/controller/judge.go:25-66 | The first loop clears or looks up rows and builds the queue as the specification says. |
| CachedJudge.Give | internal/controller/judge.go:70-97 | The second loop places each opinion at its dossier and stores it with the lifetime that began before the call. |
| Asked.EachGetsItsOwnAnswer | internal/controller/judge.go:22-97 | In a call that succeeds each dossier carries what the provider said at its own place in the queue, or the opinion of its own row, which is used exactly when nothing asks for a fresh judgment and the row is found. |
| Asked.KeptExactly | internal/controller/judge.go:70-97 | An answer is stored exactly when its dossier is safe, has a family and is not bypassed, and it is reusable and still inside its lifetime; it is stored under the row of its dossier. |
| Calls.IntakeMoves | internal/controller/judge.go:31-66 | In a call whose intake succeeds every dossier moves the store once, in order: one that may be answered from its row looks it up, any other one with a family deletes it, and no statement failed. |
| Calls.AnswersAreBounded | internal/controller/judge.go:79-95 | A dossier that was asked about leaves with the opinion of the provider, with the lifetime that began at the question exactly if it may be kept, and without bounds otherwise. |
| Calls.AnswersMove | internal/controller/judge.go:79-95 | Every answer moves the store once, in order, by what keeping it means, and no statement failed. |
| Calls.HealthyCallsSucceed | internal/controller/judge.go:22-97 | With a healthy store a call succeeds exactly when nothing is left to ask or the provider answers each question once. |
| Engine.Engine.Batch | internal/analysis/engine.go:84-218 | A batch, offline or not, leaves the table, the durable store and the lines as its three phases on values say. |
| Engine.Engine.ScanLines | internal/analysis/engine.go:113-149 | The first phase serves lines from the table or collects them into groups by ticket. |
| Engine.Engine.SettleGroup | internal/analysis/engine.go:172-215 | One group is validated, downgraded, published or invalidated, and fanned out to its lines. |
| Batches.BatchAccountsFor | internal/analysis/engine.go:84-218 | A batch keeps length, order, identity, source and text; each line is marked by a person, served by the table or in exactly one dossier; occurrences sum to the lines neither marked nor served; no line of an unsafe dossier leaves routine or reused. |
| Batches.OccurrencesSum | internal/analysis/engine.go:126-149 | The window occurrences of all dossiers sum to the lines that were neither marked nor served. |
| Batches.StaleGroupsStayOut | internal/analysis/engine.go:150-199 | A group whose ticket a later line evicted is sent in bypass mode, can neither come from nor become a durable row, and its lines leave as stale or for independent review. |
| Batches.RollbackReassesses | internal/analysis/engine.go:135-157 | Behind a wall time the table has seen, no line is served, and every identified dossier reaches the durable cache in a mode that deletes its row before dispatch and never looks it up. |
| Rollback.RollbackOverRuns | internal/analysis/group.go:208-218 | Over whole runs: once a batch has observed a line, every later batch of that process with an earlier wall reading serves nothing, and each of its identified dossiers has its row deleted before dispatch and is not answered from it. |
| Rollback.ProcessKeeps | internal/analysis/group.go:208-212 | Batches of one process, with any readings, never lower the wall mark of the table. |
| Lifetime.CachedReuseIsJustified | internal/analysis/engine.go:113-125 | After any run of batches and restarts, a line served from the table carries the opinion of a dispatch for its family whose wall window contains the reading and, if this process made it, whose TTL has not elapsed on the monotonic clock. |
| Lifetime.DurableReuseIsJustified | internal/controller/judge.go:55-64 | After any run, every answer from a durable row is the opinion of a dispatch for the same family inside its wall window and, within the process that made it, inside its TTL on the monotonic clock. |
| Lifetime.RunSound | internal/analysis/engine.go:84-218 | Every table entry, registry entry and row of every run traces back to a dispatch and its original window. |
| Answers.LinesGetTheAnswer | internal/analysis/engine.go:170-206 | The first line of a current group carries the opinion answered for its dossier, with routine turned into uncertain exactly when the dossier is unsafe or the importance is not at least 0.7 sure, or says that there is no usable answer; every later line carries the same judgment exactly when the table now holds it, and the review judgment otherwise. |
| Answers.LinesTellTheirEvidence | internal/analysis/engine.go:185-212 | Every line of a dossier is assessed with the counts, limits, reason and family of its own dossier; the lines of an evicted ticket are stale or up for review. |
| Answers.SafeAnswersAreShared | internal/analysis/engine.go:189-209 | A valid, reusable answer for a safe and current group that is still inside its bounds is given to all its lines and held by the table. |
| Answers.NothingStaleIsShared | internal/analysis/engine.go:189-209 | A shared judgment was inside its bounds when it was published, and its dossier was safe and had a ticket. |
| Lines.LinesOutsideDossiers | internal/analysis/engine.go:88-125 | A line that a person marked leaves as they left it; a line that the table serves leaves with exactly that judgment, as reused, assessed as one cached line of its own family that nobody was asked about. |
| Answers.AnswersAreTheProviders | internal/analysis/engine.go:159-169 | Without a durable cache the answers are the opinions of the provider, one a dossier, or none at all. |
| Answers.AuditsReachTheProvider | internal/analysis/engine.go:135-157 | A dossier that was told to ask again, reviewed or evicted is asked about; any other may use its row exactly when it is safe and nothing is rescored. |
| Answers.OfflineIsCautious | internal/event/event.go:234-239 | Offline, lines that the local rules find important stay important, and others are never called routine. |
| Evidence.DossiersAreAboutLines | internal/provider/provider.go:60-81 | A dossier is about its lines and all of them: it counts them, keeps their different samples up to eight, and is unsafe exactly when some line is doubtful or there were more; lines that the table gave one ticket share a dossier, and a line without a ticket has its own. |
| Origins.HistoryIsAnswers | internal/analysis/engine.go:159-198 | The dispatches that justify reuse are not made up: each was made in a batch of the run, and the provider answered it there, about that family, with that opinion. |
| Origins.DispatchesAreAnswers | internal/analysis/engine.go:159-198 | The same of one batch. |
| Policy.StricterNotifiesLess | internal/controller/policy.go:47-64 | Asking for more confidence or for fewer kinds never creates a notification. |
| Incidents.RateIsBounded | internal/controller/store.go:225-241 | With one valid policy and a clock that never goes back, an incident enqueues at most 2*(1 + (Window-1)/Cooldown + MaxEscalation) + 1 notifications in any recurrence window. |
| Incidents.LevelFollowsCount | internal/controller/store.go:225-234 | Its level is always the number of whole recurrences counted in the window, capped. |
| Incidents.TallyCounts | internal/controller/store.go:232-241 | The notifications tallied for the bound are the ones enqueued in the window. |
| Rates.NotificationRateBound | internal/controller/store.go:186-260 | The same bound and the same level for every resident incident of the store, over any sequence of calls of Apply. |
| Policy.DecisionsAre | internal/controller/policy.go:47-64 | What each decision means: notified exactly when clear, sure three times, important and in one of the two lists; ignored exactly when clear and sure but not that; put up for review or dropped in every other case. |
| Policy.ListedKindPages | internal/controller/policy.go:60-62 | One listed kind is enough, whatever the other kind and the other list are. |
| Pages.PageArrives | internal/controller/store.go:186-260 | A clear, sure and important event of a listed kind that is new, of an incident that was not paged within the cooldown, leaves exactly one new pending note with its own opinion, due at once. |
| Pages.DoubtIsReviewed | internal/controller/store.go:186-260 | A doubtful event of a new incident leaves exactly one note for review if the policy says so, and nothing but its occurrence otherwise. |
| Pages.OthersAreNotPaged | internal/controller/store.go:186-260 | Whatever fails, a doubtful event is never paged nor ignored, and a clear one in neither list leaves only its occurrence. |
| Pages.RepeatsAreDuplicates | internal/controller/store.go:186-212 | An event that committed is a duplicate from then on and makes no other event one; events are of one incident exactly when they have one source and one text. |
| Pages.FaultsNeverCommit | internal/controller/store.go:186-260 | An event commits only if no statement on its way failed, and is a duplicate exactly when its occurrence could be read and is there. |
| Incidents.HistoryIs | internal/controller/store.go:225-241 | The row of an incident told from its events alone: the window opened with one of them and counts every one since, and the last notification is the latest that was enqueued. |
| Incidents.EnqueuedExactly | internal/controller/store.go:225-241 | The first event is enqueued, and a later one exactly when the last enqueued one lies a cooldown back, a notification follows a review, or the events of the window make a whole recurrence up to the escalation limit. |
| Rates.StoreEnqueuesExactly | internal/controller/store.go:186-260 | The same for the store, over runs of Apply with faults in which the incident is not evicted. |
| Controller.AllOrNothing | internal/controller/store.go:186-260 | Apply commits occurrence, incident and notification together or leaves everything as it was; backpressure arises only when the outbox is full of pending rows; bounds, counters and conservation are kept. |
| Controller.TrackedEffect | internal/controller/store.go:213-256 | The counted part of the transaction records exactly one incident and at most one notification with the next sequence number. |
| Controller.Store.Apply | internal/controller/store.go:186-260 | The code commits what the specification says for every combination of failing statements. |
| Controller.Store.CountEvent | internal/controller/store.go:225-252 | Window, count, level and last are reassigned step by step to the specified row, with the specified decision to enqueue. |
| Controller.DueFirstUnique | internal/controller/sink.go:78-90 | Among the due rows exactly one is first. |
| Controller.Store.FindDue | internal/controller/sink.go:78-90 | The scan finds that row, or that nothing is due. |
| Controller.Store.Pending | internal/controller/sink.go:73-123 | Fetching counts the attempt of the first due row before it is sent, buries a row that has used all eight, reports a malformed one, and changes no other row. |
| Controller.Store.Delivered | internal/controller/sink.go:124-139 | An answer marks its row delivered, dead or due again later, and changes no other row. |
| Tables.MadeRoomSound | internal/controller/capacity.go:41-82 | Making room evicts only rows that may go, oldest first, counts them, and fails exactly when the table is full of rows that must stay. |
| Tables.InsertSound | internal/controller/capacity.go:41-82 | An insertion keeps table and counter in step and within 10000 rows. |
| Tables.OldestFreeUnique | internal/controller/capacity.go:53-70 | The deleted set is determined: no two sets are both the oldest free rows. |
| Tables.DeleteOldest | internal/controller/capacity.go:53-70 | The deleting statement as a loop removes that set. |
| Tables.MakeRoom | internal/controller/capacity.go:41-82 | The steps of the function leave the specified table or report backpressure. |
| Retries.DueIsTaken | internal/controller/sink.go:73-123 | Whenever a pending row is due, a fetch takes the one due first, with one attempt more, or buries it after eight; a payload that is too large fails the fetch and changes nothing. |
| Retries.OnlyTheFirstIsTouched | internal/controller/sink.go:78-123 | A fetch touches only the first of the waiting rows, the one due first and of several due at once the one with the least identity; when none waits it does nothing. |
| Retries.OnlySoundRowsAreTaken | internal/controller/sink.go:92-122 | A row is handed out only if it can be sent, and a fetch fails exactly on a row that cannot be. |
| Retries.ReportsAre | internal/controller/sink.go:124-139 | A report changes the row of its own attempt and no other: delivered, pending again, or dead after the eighth. |
| Evictions.OldestGoFirst | internal/controller/capacity.go:41-82 | A committed event pushes out at most one occurrence, one incident and one notification, each only from a full table and the oldest there by its own column, and never a pending notification. |
| Evictions.FirstToEndGoes | internal/controller/capacity.go:41-82 | A stored verdict pushes out the verdict that ends first, and only from a full table. |
| Outbox.OutboxConserves | internal/controller/sink.go:73-167 | In every run of Apply, fetch, send, report and crash from empty tables: enqueued = pending + delivered + dead + evicted, identities are never reused, at most eight sends each, only identities that were enqueued are sent, and the table and its counter stay in step and bounded. |
| Outbox.StepRespectsRows | internal/controller/sink.go:124-167 | No step makes a terminal row pending, evicts a pending row, lowers attempts or changes a payload. |
| Outbox.SendsAreAccounted | internal/controller/sink.go:71-167 | In every run with crashes, the sends of an identity are its confirmations (at most one), its sends that ended in a crash, a rejection or a lost report, and the one in flight; tries are sends plus crashes before the send, at most eight; an enqueued identity is pending, confirmed or was tried eight times. |
| Outbox.ConfirmedIsFinal | internal/controller/sink.go:124-167 | However a run goes on after a confirmation, the notification is never sent again. |
| Retries.RejectionBacksOff | internal/controller/sink.go:124-139 | Over every run: after attempt number a was rejected, the notification is not taken out again for two to the power of a seconds. |
| Retries.LostAttemptWaits | internal/controller/sink.go:115-122 | Over every run: an attempt whose outcome is never written down is not followed by another for thirty seconds. |
| Parser.ChunkIndependence | internal/event/event.go:262-409 | Two ways of cutting the same bytes into reads leave the parser in the same state: events, acceptor calls, raw-line digests, truncation, key state, marker window and pending frame, lines over the limit included; key markers are at most one byte longer than the window and do not overlap. |
| Parser.MarkerLengthIsExact | internal/event/event.go:143-282 | For a line with one key begin marker, all ways of reading it leave the same state if and only if the marker is at most 129 bytes long; the pattern itself has no limit. |
| Parser.CutMarkerIsSeen | internal/event/event.go:273-282 | A begin marker cut between two reads opens the key state if and only if it ends before the cut or starts in the last 128 bytes before it. |
| Parser.OverlapDependsOnReads | internal/event/event.go:274-282 | A begin and an end marker that share bytes: read at once the key state is on, cut where only the end is still in the window it is off. |
| Parser.FeedIsAbsorb | internal/event/event.go:262-294 | A read leaves the parser where a reference that takes one byte at a time is after the same bytes. |
| Parser.NoMarkersAreClean | internal/event/event.go:274-282 | A stream without private-key markers meets that condition. |
| Parser.FramesInOrder | internal/event/event.go:345-369 | Emitted frames and the pending one are disjoint ranges of lines, in order, and count no line twice. |
| Parser.Parser.Feed | internal/event/event.go:262-294 | The loop over the pieces of a read leaves the specified state and returns the frames it adds. |
| Parser.Parser.EndLine | internal/event/event.go:295-370 | A finished line is offered to the acceptor once, stamped, redacted and framed as specified, and the line state is reset. |
| Parser.Parser.Join | internal/event/event.go:340-369 | A text line extends the pending frame or replaces it as specified. |
| Parser.Parser.Take | internal/event/event.go:270-286 | Digest, marker window, key state and bounded buffer see the bytes as specified. |
| Parser.Parser.Finish | internal/event/event.go:392-409 | End of input finishes the rest as a partial line where it is one and flushes the pending frame with its doubts. |
| Pem.WindowScan | internal/event/event.go:275-282 | Scanning the kept 128-byte tail with the next chunk gives the key state, and finds a marker in the line, exactly as one scan of the whole line would. |
| Secrets.KeysDoNotLeak | internal/event/event.go:270-336 | Two streams that hold the same key markers and differ only inside lines of an open key or with a marker, where stamps, cuts and framing patterns agree, give the very same frames, however they are read and wherever they end. |
| Secrets.PrivateLinesAreRedacted | internal/event/event.go:334-336 | Every private line that is accepted is in a sensitive frame, and a frame of that line alone is the redaction. |
| Framing.ReadsAreTold | internal/event/event.go:262-409 | Whatever the reads, the frames of whole lines are the texts of their own lines joined, with their own stamps and doubts, and every line that shows is in one of them. |
| Framing.FramesAreTheirLines | internal/event/event.go:345-369 | The same of the reference, with the pending frame told line by line. |
| Framing.JoinsExactly | internal/event/event.go:338-369 | A line joins the pending frame exactly when it continues it, and starts its own otherwise. |
| Framing.HeadsAreRead | internal/event/event.go:305-329 | What is read off the start of a line as its stamp, and which lines the acceptor can drop. |
| Framing.EveryLineIsOffered | internal/event/event.go:307-323 | The acceptor is asked once about every line of a transported source, with its own stamp and digest, in order. |
| Framing.CutLinesAreDoubted | internal/event/event.go:392-409 | A line that the end of the input cuts off is in the last frame, truncated and uncertain. |
| Reviews.EventComposes | internal/investigation/reviews.go:156-203 | Projecting an event twice is projecting it with the last rules alone, if and only if no original judgment that is not an object is lost: present, marked by the first rules, not by the second. |
| Reviews.EventAlmostComposes | internal/investigation/reviews.go:156-203 | Even then the two results differ in that one field only. |
| Reviews.OddJudgmentIsLost | internal/investigation/reviews.go:157-166 | A well-formed event with a null original judgment is such a case. |
| Reviews.DisablingRestores | internal/investigation/reviews.go:157-203 | Disabling every rule gives back the event as it came. |
| Reviews.ProjectionKeepsEvidence | internal/investigation/reviews.go:186-203 | Nothing but judgment, review and original judgment of a fresh event is touched. |
| Reviews.MarkIsUndone | internal/investigation/reviews.go:157-203 | Restoring after marking gives back the event. |
| Reviews.Restore | internal/investigation/reviews.go:157-166 | The deleting and copying loops, fields in any order, restore the event as specified. |
| Reviews.Match | internal/investigation/reviews.go:167-185 | The loop finds the first enabled rule whose pattern and scope match. |
| Reviews.Mark | internal/investigation/reviews.go:187-203 | The loops save the judgment, mark the event as routine and say why. |
| Projection.Compose | internal/investigation/reviews.go:142-243 | Composition of reports: events and tail agree exactly when no odd original judgment is lost, important groups always agree, and so does every count that was at least the number of its events. |
| Projection.CountsComposeExactly | internal/investigation/reviews.go:204-209 | For a report never projected before, a count (not routine, not the completeness flag) obeys the law for all acknowledgements if and only if it counts no event or is at least the number of its events. |
| Projection.RoutineComposesExactly | internal/investigation/reviews.go:204-209 | For a report never projected before, the routine count obeys the law for all acknowledgements if and only if it is not negative or every event is routine already. |
| Projection.CompletenessComposes | internal/investigation/reviews.go:239-241 | The completeness flag composes exactly when the last rules alone leave unknown events in the given report, or the first alone leave none, or the report was incomplete to begin with. |
| Projection.CompletenessIsLost | internal/investigation/reviews.go:239-241 | A complete report with one unknown event, projected without rules and then acknowledged, stays incomplete; acknowledged at once it is complete. |
| Projection.RecountIsExact | internal/investigation/reviews.go:204-209 | With enough to count down from, a count moves by exactly the events that changed. |
| Projection.TotalIsKept | internal/investigation/reviews.go:204-209 | The total over all importances is unchanged. |
| Projection.GroupsPartition | internal/investigation/reviews.go:212-226 | When the hash tells the events of the report apart, each group holds all the important events of one source and text, in order, and every important event is in its group. |
| Projection.OrderIsUnique | internal/investigation/reviews.go:227-238 | Only one order of the groups is right, so the random order of the map cannot show. |
| Projection.Project | internal/investigation/reviews.go:142-243 | The loops over events, tail and groups compute the specified report. |
| Projection.Regroup | internal/investigation/reviews.go:212-238 | Grouping through a map and sorting gives exactly the groups of the events, ordered. |
| Reviews.MarkedExactly | internal/investigation/reviews.go:167-203 | An event is expected exactly when a rule takes it, and the first one that does is named; else it is acknowledged if its identity was, and else only restored. |
| Projection.GroupsAreRanked | internal/investigation/reviews.go:212-238 | The report ranks its groups by their events, then by identity, and every important event is in exactly one of them. |
| Projection.EveryImportantIsGrouped | internal/investigation/reviews.go:212-226 | Every important event is a member of a group that exists. |
| Trees.Lossless | internal/analysis/rules.go:73-95 | Two trees with the same nodes, kinds and leaves at every path are the same tree. |
| Trees.EscapeRoundTrip | internal/analysis/rules.go:78-80 | The two replacement passes of the escape of section 3 of RFC 6901 are undone by the unescape of section 4, and leave no slash. |
| Trees.DecimalRoundTrip | internal/analysis/rules.go:81-84 | Printed indices name their elements uniquely. |
| Trees.AtChild | internal/analysis/rules.go:78-84 | Looking up a segment and a tail is looking up the tail in the child the segment names. |
| Flatten.Walker.Walk | internal/analysis/rules.go:73-95 | The recursive walk, keys in any order, leaves in the maps exactly what looking up every path would give, with its kind. |
| Flatten.FillsMore | internal/analysis/rules.go:78-84 | Walking a child fills in exactly the paths under its segment. |
| ReviewedRules.ReviewedMeaning | internal/analysis/rules.go:96-162 | Two events get one template from a loaded rule set if and only if the same rule takes both and their payloads agree everywhere but at its normalize paths. |
| ReviewedRules.DifferencesAreReviewed | internal/analysis/rules.go:57-68 | Where such payloads differ both have a string at a reviewed path that is not protected; everything a rule requires or protects is the same. |
| ReviewedRules.NothingNormalized | internal/analysis/rules.go:143-159 | A rule without normalize paths tells any two payloads apart. |
| ReviewedRules.Load | internal/analysis/rules.go:40-72 | Loading accepts exactly the rule sets with distinct identities, live reviews and safe, distinct paths. |
| ReviewedRules.FindTemplate | internal/analysis/rules.go:96-162 | The loop uses the first rule that takes the event, and no template comes of an ineligible event or of none. |
| ReviewedRules.LoadableMeans | internal/analysis/rules.go:40-72 | Which rule sets are loaded, as a condition on every rule and every pair of rules and paths. |
| ReviewedRules.TakesMeans | internal/analysis/rules.go:96-140 | Which events a rule takes, in terms of the source, the text and the parsed payload. |
| Masking.LinesKeepGuarded | internal/analysis/group.go:79-105 | Two lines with one template have as many words and agree on every protected pair, every word in a literal context and every bare status code. |
| Masking.TreesKeepProtected | internal/analysis/group.go:46-71 | Trees with one mask have the same keys, the same subtrees under protected keys and the same arrays, and differ only in leaves of the kinds that masking replaces. |
| Masking.ObjectsKeepProtected | internal/analysis/group.go:72-78 | So do two JSON lines with one template. |
| Masking.LinesRarelyMeetObjects | internal/analysis/group.go:72-105 | A JSON line and another share a template only if joining the words of the other makes JSON of it. |
| Masking.MaskAllTwice | internal/analysis/group.go:79-104 | Masking words twice is masking them once. |
| Masking.MaskTreeTwice | internal/analysis/group.go:46-71 | Masking a tree twice is masking it once. |
| Masking.ObjectTemplateTwice | internal/analysis/group.go:72-78 | The template of a JSON line is its own template. |
| Masking.LineTemplateTwice | internal/analysis/group.go:79-105 | The template of another line is its own template if and only if joining did not make JSON of it, or made JSON in masked normal form. |
| Masking.PlainTemplateTwice | internal/analysis/group.go:79-105 | A line without words, or whose first word does not begin with a brace, is no JSON object and has a template that is its own template. |
| Masking.MaskKeepsForm | internal/analysis/group.go:46-71 | Masking leaves a tree that JSON text can stand for: its numbers are numerals or strings and its nesting is unchanged. |
| Masking.JoiningMakesAnObject | internal/analysis/group.go:72-105 | A line with a form feed inside JSON shows that idempotence does fail. |
| Masking.FieldsOfJoin | internal/analysis/group.go:79-105 | Splitting at white space undoes joining with blanks. |
| Masking.MaskWords | internal/analysis/group.go:79-104 | The in-place loop, whose context test reads the word before as already masked, computes the specified masks. |
| Masking.MaskToken | internal/analysis/group.go:80-103 | One step changes one word, as specified. |
| Masking.MaskObject | internal/analysis/group.go:46-71 | The recursive rewriting of a map, keys in any order, computes the specified mask. |
| Masking.MaskEach | internal/analysis/group.go:51-54 | The loop over the fields of an object, in any order, masks each under its own key. |
| Masking.MakeTemplate | internal/analysis/group.go:72-106 | Both branches together compute the template. |
| Merging.LinesMergeExactly | internal/analysis/group.go:79-114 | Two lines that are no JSON objects have one template if and only if they have as many words and each two words in one place are equal or volatile in the same way: identifiers under one unprotected identifier field, or, in classic masking, values under one unprotected field, or bare values that are no status code and follow no word that speaks for them. |
| Merging.ObjectsMergeExactly | internal/analysis/group.go:72-78 | Two JSON lines have one template if and only if their trees agree at every path, up to leaves that are volatile in the same way outside protected fields and arrays. |
| Merging.TreesMergeExactly | internal/analysis/group.go:44-71 | The same for trees under any key. |
| Merging.WordsMerge | internal/analysis/group.go:80-112 | The same for two words in one place. |
| Learning.Escalation | internal/analysis/learning.go:100-105 | An escalation exists only over a judgment that is not important, and is a valid, important judgment. |
| Learning.TeachingOnlyRaises | internal/analysis/learning.go:106-233 | A pass leaves each line alone or raises an eligible one to important and changes nothing else of it; vetoed, stale, limited and reviewed lines stay; learning shapes changes no line. |
| Learning.TeacherAuthorityExpires | internal/analysis/learning.go:111-169 | After any run of passes, a line is raised only under the entry of its own family and less than the TTL after the pass that opened this entry: that pass found none, no later pass purged it, and its expiry has stood unchanged since. |
| Learning.EntriesAreOpened | internal/analysis/learning.go:112-153 | Every entry that a run ends with has one opening pass, which gave it the expiry it still has. |
| Learning.TeachingIsBounded | internal/analysis/learning.go:140-218 | Table, samples, questions an entry and decision log stay within their limits. |
| Learning.MonotoneReadingsNeverRollBack | internal/analysis/learning.go:112-117 | Between readings of one process the rollback test is never true, whatever the wall clock did. |
| Learning.Learning.TeachLines | internal/analysis/learning.go:106-219 | The pass over the lines in place does what its three phases on values say. |
| Learning.Learning.TakeIn | internal/analysis/learning.go:124-173 | The loop notes every eligible line in its entry and raises it if the entry says so. |
| Learning.Learning.AskAll | internal/analysis/learning.go:174-217 | At most two questions a pass are asked, logged and applied as specified. |
| Lanes.SafetyOutlivesLearning | internal/analysis/engine.go:84-86 | After a batch and the pass that ends it, a line of an unsafe dossier is neither routine nor reused and a line a person marked is as that person left it. |
| Teaching.EscalationExactly | internal/analysis/learning.go:100-105 | An answer escalates exactly when it says important with enough confidence and names a real severity, kind and cause, over lines that are not important already. |
| Teaching.EntryHearsItsLines | internal/analysis/learning.go:124-173 | An entry hears every open line of its family and version and no other, and raises exactly those if it was escalated. |
| Teaching.NewFamilyIsTakenIn | internal/analysis/learning.go:146-153 | An open line of an unknown family opens an entry exactly when there is room, and is its first line. |
| Teaching.ForgottenExactly | internal/analysis/learning.go:111-121 | A pass forgets exactly what expired, or everything when the clock is behind the pass before. |
| Teaching.QuestionsAre | internal/analysis/learning.go:174-217 | When a question is asked, and what each answer changes: the entry, the log and the lines of the batch. |
| Teaching.ProposalsAreOnlyLogged | internal/analysis/learning.go:185-193 | Under the semantic strategy an answer changes no line; it is logged as passed exactly when it is sure enough and holds for all samples. |
| Teaching.SavedEscalationsApply | internal/analysis/learning.go:106-219 | A saved escalation is applied to every open line of its family in a whole pass for as long as it lives, and to no closed one. |
| Budget.BudgetHolds | internal/provider/provider.go:309-443 | In every interleaving of any number of calls: attempts, batches and reserved money within their limits, at most three tries a call, finished = metered + unmetered, and while usage is complete the cost is covered by reservations. |
| Budget.BreakerHolds | internal/provider/provider.go:314-317 | A tripped breaker stays tripped and admits nothing more. |
| Budget.Client.Reserve | internal/provider/provider.go:309-321 | Admission changes the usage as specified. |
| Budget.Client.Record | internal/provider/provider.go:322-368 | An answer is counted and priced, or trips the breaker, as specified. |
| Budget.Client.ReadInput | internal/provider/provider.go:334-352 | The loop over extra counts sums them, or finds one that cannot be read. |
| Budget.Client.Send | internal/provider/provider.go:379-443 | One call begins, tries, records and stops as specified. |
| Spending.AdmittedExactly | internal/provider/provider.go:309-321 | When an attempt is admitted, and what a refusal does. |
| Spending.RecordedExactly | internal/provider/provider.go:322-368 | An answer is metered by the tokens it reports, Anthropic ones with their cached input, and trips the breaker when it cannot be read or cost more than was reserved. |
| Spending.CostIsThePriceOfTheTokens | internal/provider/provider.go:359-367 | In every interleaving the cost is exactly the price of all tokens that were metered. |
| Spending.CallSucceedsExactly | internal/provider/provider.go:401-443 | A call succeeds exactly when one of its three attempts is made and delivered, which the budget, the outcomes before it and cancellation decide. |
| Spending.AnswersEndCalls | internal/provider/provider.go:424-437 | After an answer a call may try again exactly when the answer allows it and it tried fewer than three times, and is over otherwise. |
| Spending.OverIsOver | internal/provider/provider.go:379-443 | A call that is over makes no further attempt in any run. |
| Parallel.OrderIsKept | internal/provider/parallel.go:16-48 | When all workers have returned, under any schedule, every slot holds what the answer for its chunk says of it, or the unknown judgment if that answer was an error or of the wrong length. |
| Parallel.LinesGetTheirOwn | internal/provider/parallel.go:31-41 | When all is done, line k of a chunk has judgment number k of the reply for that chunk, and all lines of a chunk whose reply failed or has another length are unknown. |
| Parallel.ChunksTile | internal/provider/parallel.go:31-46 | Every slot is in exactly one chunk. |
| Parallel.SomeoneCanMove | internal/provider/parallel.go:27-47 | No schedule gets stuck: until all is done some worker can take a step that makes progress. |
| Parallel.Pool.TakeChunk | internal/provider/parallel.go:30-46 | An idle worker takes the next chunk of the channel and no other worker can take it. |
| Parallel.Pool.Receive | internal/provider/parallel.go:32-33 | The answer for a chunk is kept by the worker that asked for it. |
| Parallel.Pool.WriteSlot | internal/provider/parallel.go:30-42 | A worker writes its next slot and no other. |
| Gate.GateIsExclusive | internal/output/output.go:27-56 | In every interleaving of entering, acquiring, cancelling, draining and dropping: live writers of one file share one gate, at most one holds it, its count is their number, and the table has an entry exactly while there are some. |
| Gate.GateIsFree | internal/output/output.go:49-55 | A waiting writer of a file that nobody holds can go ahead. |
| Gate.Gates.Enter | internal/output/output.go:33-40 | Entering finds or makes the gate and refers to it once more. |
| Gate.Gates.Drop | internal/output/output.go:41-48 | Dropping refers to it once less and removes the entry with the last reference. |
| Gate.EveryWriterCanLeave | internal/output/output.go:41-56 | In every state a writer can cancel or drain and then drop its reference, without the others. |
| Volume.MigrationIsSafe | internal/controller/volume.go:45-136 | At every moment of every run, after any number of runs stopped anywhere: each artifact is in exactly one place with what it held, the database leaves the root last, and the private directory is empty or holds the complete set. |
| Volume.StagingStopsEverything | internal/controller/volume.go:65-69 | Once staging exists, further runs change nothing and none succeeds. |
| Volume.SuccessIsComplete | internal/controller/volume.go:94-136 | A run that succeeds on a legacy volume leaves the complete set in the private directory, nothing elsewhere, and nothing for a further run to do. |
| Volume.VolumeRoot.Prepare | internal/controller/volume.go:45-136 | The code makes the specified changes in order; stopped before any of them it leaves the specified disk. |
| Volume.VolumeRoot.MoveAll | internal/controller/volume.go:110-131 | The loop moves the artifacts that exist one by one, the database last. |
| Volume.UnclearVolumesAreLeftAlone | internal/controller/volume.go:26-93 | A volume that is guarded by another run or whose state is not clear stays as it is, and the run fails. |
| Volume.ClearVolumesArePrepared | internal/controller/volume.go:45-136 | Every clear volume is prepared unless its database is in use: the private directory has exactly the files there were, and a lock file if there is a database. |

## Left out

- SQLite, its pragmas, the file layer and schema migration: only the meaning of a transaction is kept, and a failing statement or commit leaves the old value; a commit that fails after taking effect is not modelled.
- Metrics counters, log output and the checkpoint report, which no decision reads.
- Kubernetes, HTTP, the webhook, the command line, the terminal and the browser interface.
- Timers, tickers and fill deadlines: the steps they trigger happen at arbitrary moments; `Engine.Run` and the one-second delivery loop are sequences of such steps.
- Wrap-around of 64-bit generations, sequence numbers and occurrence counts, which are unbounded here; the replay filter's counters do keep their 64-bit limit.
- The store is one class in the source; its verdict half is `VerdictStore.Store` and its incident half `Controller.Store`, which share no table and no field but the lock.
- A dossier is a value here; the source observes lines into a struct that only its group holds.
- The limit of 4096 bytes on a stored judgment's text, which belongs to JSON encoding; a row that cannot be read is a fault of the lookup.
- Source values are strings in `Events` and JSON values in `Reviews` and `ReviewedRules`.
- The batch engine takes the masked text and the reviewed template as functions of a line; `Masking` and `ReviewedRules` prove what those functions keep apart, in their own modules.
- Validation of a teacher's proposal against its samples: proposals only reach the decision log, as `Learning.TeachingOnlyRaises` and `Teaching.ProposalsAreOnlyLogged` show, so it is a parameter there.
- The checks of the rules file in `rules()` and of a report in `validReport`; the projection is modelled on reports that passed them, except that items which are no objects are still skipped.
- A parallel judge asked for no more than one chunk passes the call through; only the case with workers is modelled.
- Request building and response decoding of the providers; an answer is an arbitrary list of opinions or an error.
- File modes, owners, link counts and synchronisation calls of the volume migration: a change of a directory is one step that happened or did not.
- Replay.ExactlyOnce: assumes whole, stamped lines in time order, because the code accepts and reports a gap for a partial, untimestamped or earlier line, which `Replay.Cursor.AcceptLine` covers.
- Parser.ChunkIndependence: assumes that key markers are at most 129 bytes long and do not overlap, because the scanner keeps only 128 bytes of a line; `Parser.MarkerLengthIsExact` and `Parser.OverlapDependsOnReads` show that it fails without.
- Incidents.RateIsBounded: assumes a clock that never goes back; the code starts a new window and may notify again when it does.
- Projection.GroupsPartition: assumes that the hash gives different identities to different sources and texts among the important events of the report, because two events with one identity would share a group.
- Masking.PlainTemplateTwice: gives one direction only, because a line that begins with a brace may or may not become JSON; the exact condition on its template is `Masking.LineTemplateTwice`.
- Projection.TotalIsKept: assumes enough to count down from for the importances named, because a clamped count loses events.
- Projection.CountsComposeExactly: is about reports that were never projected, as is `Projection.RoutineComposesExactly`; for a projected report, whose clamped counts depend on the order of the events, `Projection.Compose` gives a sufficient count only.
- Projection.CompletenessComposes: assumes that no event's importance is itself called complete_within_window and that the unknown count is at least its events, because the flag shares its map with the counts.
- Budget.BudgetHolds: prices and costs are reals, so the rounding of sums is not modelled.
- Merging.LinesMergeExactly: takes as given that replacing a value by its marker does not change what the word says of the next one (`Merging.ContextSurvives`); the pattern for protected names has this, because no name it looks for is completed by a value or by a marker; lines that are JSON are the subject of `Merging.ObjectsMergeExactly`.
- Secrets.KeysDoNotLeak: assumes the clean key markers of `Parser.ChunkIndependence`, and that the acceptor, which sees a digest of each line, decides alike on both streams.
- Framing.ReadsAreTold: is about input that ends with a newline; for a rest without one `Framing.CutLinesAreDoubted` tells its doubts.
- Rates.StoreEnqueuesExactly: assumes a clock that never goes back and an incident that is not evicted, like the rate bound.
- Lasting.StoredIsFound: takes lookups whose time to live is not shorter than the one the verdict was stored with, because the judge uses one for both; `VerdictStore.AuthorityOnlyShrinks` covers the others.
