# Verified core of the agent SDK: sessions, run end, control, mirroring

This project models the parts of the Go agent SDK that hold state, walk graphs or interleave, and proves
what they promise over every input, every run and every interleaving. `dafny verify dfyconfig.toml` checks it.

* **Transcript graph.** `Json`, `Seqs`, `Conversation`, `Subagents`, `Fork`, `ForkProofs`, `ForkWrites`. A transcript is a list of
  entries linked by `parentUuid`, with branches, dangling parents, repeated uuids and cycles. The readers walk it;
  a fork copies it under new uuids and re-links parents over the progress entries it drops.
* **Stores, summaries and listings.** `Summary`, `SessionRow`, `Order`, `MemoryStore`, `Listing`, `Hex`, `FileStore`,
  `FileListing`, `Import`, `ProjectKey`. The in-memory store folds a summary at every append and lists sessions from it;
  the file store keeps the same abstract map in hex-named JSON-lines files, with sidecars stamped from their mtimes.
* **Run end.** `RunEnd`. When a Query is over, decided from session states, a ledger of in-flight agents, the
  result and a ceiling timer, over the Queries of one client.
* **Concurrent Send.** `Send`. Any number of Sends contending for one pipe, with cancels, write deadlines and Close.
* **Control requests.** `Control`. Any number of callers and one reader sharing a table of one-slot channels.
* **Mirror and read loop.** `Mirror`, `MirrorOrder`, `MirrorRetry`, `ReadLoop`. Frames buffered, regrouped per file,
  appended with retries, and flushed before each result.

Code that changes things step by step is a class or a method with loops, proved against a specification function;
the theorems are lemmas about those functions. `Send` and `Control` are transition systems over values: one label is one
step that another goroutine can see between, a label that cannot happen changes nothing, and a theorem about
`Exec(INIT, ls)` for every list of labels is a theorem about every interleaving.

Strings are sequences of one character a byte, as Go strings are; `ProjectKey` alone works on runes.

## Results that qualify what the code says of itself

* The fork's walk over progress entries has no guard against a cycle (domains/sessions/fork_via_store.go:98-108).
  `WalkEndsIff` says exactly when a walk ends and `ForkHaltsIff` when the fork of a transcript does; `ForkCanHang` gives a
  transcript of two entries that is never forked.
* The comment on the listing says rows with nothing to show are dropped before limit and offset apply
  (domains/sessions/list_from_store.go:22-23); rows filled by Load are dropped after (lines 74-89). `ListingsCanDiffer`
  gives a coherent store whose two listings differ, `PagesAgreeIff` says exactly when the two orders give the same pages,
  and `FastIsSlowIff` what that means for the two listings.
* A Send queued on the lock can write between a cut-off write's release of the lock and the closing of stdin
  (domains/transport/subprocess/subprocess.go:161-179, 205-214): `QueuedStillWrites` is such a run. A write that fails
  part-way without a cancel closes nothing. `LaterQuietIff` says exactly from when on no new Send adds a byte.
* Pending control requests are released only when Receive fails (domains/agent/session_manager.go:257-269); the loop also
  ends otherwise. `ReleasedIff` says exactly which waiting requests come back, `StopsReleasesIff` which do when the loop
  ends without a drain, and `StrandedReachable` is a run that strands one.
* A Query yields a message before it tracks it (domains/agent/runend.go:228-231), so a caller that stops at one keeps it
  off the ledger: `StoppedMisses` is such a client, and `QueryLedgerIff` says exactly when nothing is missed.
* Two paths can share a store key: with and without the ".jsonl" suffix (`SameKeyIff`), or two spellings of one file.
  The flush groups by path (domains/agent/mirror.go:109-116), so it can then turn arrivals around: `CrossedModesDiffer`
  shows batched and eager mode storing different orders, and `FlushKeepsOrderIff` says exactly for which paths a flush
  keeps the order.
* Retrying is exactly-once only for entries the adapter can tell apart: one without a uuid, landed by a failed attempt, is
  stored twice (`NamelessTwice`). `NeverMoreIff` says exactly for which batches no outcome of the attempts stores an entry
  once too often, and `JustOnceIff` for which every append that reports no error stores each entry exactly once.
* Between the calls for summaries and for the listing a store can be written to
  (domains/sessions/list_from_store.go:28-38): `LaterCoherent` shows that a summary still taken for current is.

## Model

| member | source | states |
|---|---|---|
| Conversation.ConversationChain | domains/sessions/messages_from_store.go:60-144 | the loops over maps, seen-sets and the in-place reversal compute `Chain` on every transcript and end, cycles included |
| Conversation.BuildIndexes | domains/sessions/messages_from_store.go:71-82 | one pass each gives the last entry and position of every uuid and the set of uuids named as a parent |
| Conversation.CollectLeaves | domains/sessions/messages_from_store.go:90-108 | each terminal contributes the first turn on its way up, in transcript order |
| Conversation.BestLeaf | domains/sessions/messages_from_store.go:112-129 | the newest leaf on the main chain, or the newest of all if none is |
| Conversation.ChainFrom | domains/sessions/messages_from_store.go:130-139 | the guarded walk from the leaf collects each ancestor once |
| Conversation.ChainFacts | domains/sessions/messages_from_store.go:60-144 | on every transcript the chain repeats no uuid, links each entry to the one before, ends at the newest main-chain leaf or the newest leaf, starts where the parent is absent or already visited, and is empty exactly when there is no leaf |
| Conversation.WalkFacts | domains/sessions/messages_from_store.go:130-139 | a walk repeats nothing, follows resolved parents and stops only at a root or an entry it has visited |
| Conversation.WalkIsAncestry | domains/sessions/messages_from_store.go:83-89 | where parents come first, the guarded walk is the plain line of ancestors |
| Conversation.LeafIsLastTurn | domains/sessions/messages_from_store.go:90-129 | on an orderly transcript without sidechain, meta or team turns, the search over terminals picks the last user or assistant entry |
| Conversation.ChainIsAncestry | domains/sessions/messages_from_store.go:60-144 | so its chain is that entry and its line of ancestors, oldest first |
| Conversation.ChainWithin | domains/sessions/messages_from_store.go:60-144 | every entry of a chain is an entry of the transcript |
| Conversation.GetSessionMessages | domains/sessions/messages_from_store.go:21-58 | a page of the visible entries of the chain, in order |
| Conversation.ShownAre | domains/sessions/messages_from_store.go:24-52 | unpaged, the messages are those of the chain's user and assistant entries that are not meta, of no sidechain and of no team, each one's once and in order, with its type, uuid, session and message |
| Seqs.PageIs | domains/sessions/list_from_store.go:113-124 | a page starts at its offset, if there is that much, and holds what follows up to its limit or the end; a limit or offset not above zero is none |
| Subagents.SubagentChain | domains/sessions/subagents_from_store.go:118-148 | the climb from the last turn, turns only, oldest first, on every transcript |
| Subagents.SubagentChainIsConversation | domains/sessions/subagents_from_store.go:118-148 | on such a transcript the subagent reader and the session reader find the same turns |
| Fork.ForkSessionViaStore | domains/sessions/fork_via_store.go:32-165 | the store gains exactly `ForkOf`'s entries under the new id, which `ForkIs` says entry by entry, and on each error, which `ForkErrors` tells apart, nothing changes |
| Fork.MakeFork | domains/sessions/fork_via_store.go:40-165 | filter, cut, map, re-link, rewrite and title in one result, with every error case: the result `ForkIs` and `ForkErrors` describe |
| Fork.Scan | domains/sessions/fork_via_store.go:47-60 | the transcript entries off any sidechain, and the replacements recorded for this session, in order |
| Fork.CutTranscript | domains/sessions/fork_via_store.go:61-76 | the prefix up to and with the first entry of the asked uuid, or an error if there is none |
| Fork.MapEntries | domains/sessions/fork_via_store.go:78-91 | one fresh uuid an entry, progress entries too, and the entries to write |
| Fork.KeptParent | domains/sessions/fork_via_store.go:98-108 | the unguarded walk finds the nearest ancestor that is copied, wherever it ends |
| Fork.Copy | domains/sessions/fork_via_store.go:93-134 | one rewritten entry for each entry that is not progress, the last stamped now |
| ForkProofs.WalkEndsIff | domains/sessions/fork_via_store.go:98-108 | the unguarded walk ends if and only if following parents over progress entries does not come back to one passed |
| ForkProofs.ForkHaltsIff | domains/sessions/fork_via_store.go:98-108 | the fork of a loaded transcript returns if and only if the walk from each entry it copies ends |
| ForkProofs.ForkCanHang | domains/sessions/fork_via_store.go:98-108 | a transcript of a progress entry that is its own parent and that entry's child is never forked |
| ForkProofs.OrderlyGrounded | domains/sessions/fork_via_store.go:98-108 | where parents come first every walk of the fork ends |
| ForkProofs.ForkEntriesAreFork | domains/sessions/fork_via_store.go:93-133 | every kept entry is copied at its place, with its parent the copy of its nearest kept ancestor |
| ForkProofs.ChainOfCopies | domains/sessions/fork_via_store.go:93-133 | the chain of the copies is the copies of the chain without progress entries |
| ForkProofs.ForkKeepsConversation | domains/sessions/fork_via_store.go:47-133 | the chain of the fork, whole or cut, is the chain of the (cut) source without progress entries, renamed injectively, type and message unchanged |
| ForkProofs.ForkShowsSameMessages | domains/sessions/fork_via_store.go:47-133 | every page of messages of the fork is that page of the source, under the new uuids |
| ForkProofs.RenamingInjective | domains/sessions/fork_via_store.go:78-88 | distinct old uuids get distinct new ones |
| ForkProofs.WholeIsSelected | domains/sessions/fork_via_store.go:47-60 | with no sidechain entry and no cut, what is forked is the whole transcript |
| ForkWrites.ForkErrors | domains/sessions/fork_via_store.go:32-91 | when a fork fails and with which error: an id is not valid, the source holds nothing, the asked message is not in its transcript, or the transcript up to that message is empty or all progress; otherwise it is forked |
| ForkWrites.SelectedIs | domains/sessions/fork_via_store.go:47-76 | what is copied is every transcript entry off any sidechain, in order, up to and with the first of the asked uuid; nothing exactly when none has it |
| ForkWrites.ForkIs | domains/sessions/fork_via_store.go:93-164 | what a fork writes, field by field: a copy of each kept entry with its new uuid, its parent's copy, the new uuid of its logical parent or null, its own timestamp or now, and where it came from; then the replacements in one entry, if there are any; then the title |
| ForkWrites.TitleMeans | domains/sessions/fork_via_store.go:142-155 | the caller's title, trimmed; else " (fork)" after what the history calls the session: its last custom title, its last AI title, or its first prompt or command, in that order, and "Forked session" without any or for a sidechain |
| ForkWrites.ForkShown | domains/sessions/fork_via_store.go:142-164 | folded and shown as a listing does, the fork has that title as its custom title and its summary |
| ForkWrites.ReplacementsAre | domains/sessions/fork_via_store.go:51-60 | the replacements copied are those the source's entries of this session hold, in order, and no other |
| ForkWrites.ForkKeepsReplacements | domains/sessions/fork_via_store.go:51-140 | the fork holds for its own id exactly the replacements the source holds for its, in order, in one entry if there are any |
| Summary.FoldSessionSummary | domains/sessions/summary.go:54-92 | the loop over entries folds them into the previous summary, or a new one |
| Summary.FoldFirstPrompt | domains/sessions/summary.go:128-164 | one entry's texts are tried in order until a prompt locks |
| Summary.PromptTextsAre | domains/sessions/summary.go:128-144 | only an entry the user typed has candidate texts, not one that is meta, a compact summary or holds a tool's result: its whole content, or its text blocks in order |
| Summary.FoldIsHomomorphism | domains/sessions/summary.go:54-92 | folding batches one after another is folding their concatenation, for every split |
| Summary.FoldMeansHistory | domains/sessions/summary.go:54-164 | each field is its whole-history meaning: first sidechain, cwd and valid timestamp, last title, hint and branch, the tag as its last entry leaves it, the first real prompt and the first command before it |
| Summary.PromptsMean | domains/sessions/summary.go:128-164 | the locked prompt is the first real one, and the fallback the first named command typed before it |
| SessionRow.RowMeans | domains/sessions/summary.go:166-206 | read off the history alone: a session has a row exactly when its first entry is no sidechain and one of five texts is not empty; the row shows the first non-empty of last custom title, last AI title, last prompt, last hint and first prompt or command; its title, branch, tag, directory and creation time are the whole-history values |
| SessionRow.RowUnique | domains/sessions/summary.go:166-206 | and no other row fits that description |
| MemoryStore.MemorySessionStore.Append | domains/sessions/memory_store.go:32-60 | the transcript grows by the entries, mtimes strictly grow, and a main transcript's summary is folded on |
| MemoryStore.AppendIsNewest | domains/sessions/memory_store.go:43-48 | the transcript appended to becomes the newest of all, stamped with the clock's time, or one past the last stamp where the clock is not ahead of it |
| MemoryStore.TimesApart | domains/sessions/memory_store.go:43-48 | so in every reachable state, under any clock, no two transcripts have one mtime |
| MemoryStore.MemorySessionStore.Load | domains/sessions/memory_store.go:62-71 | the stored entries, none for an unknown key |
| MemoryStore.MemorySessionStore.Delete | domains/sessions/memory_store.go:86-101 | a main key takes every transcript and the summary of the session along, a subpath only itself |
| MemoryStore.MemorySessionStore.ListSessions | domains/sessions/memory_store.go:73-84 | every main transcript of the project once, in whatever order the map gives |
| MemoryStore.MemorySessionStore.ListSessionSummaries | domains/sessions/memory_store.go:117-132 | every summary of the project once, in whatever order |
| MemoryStore.MemorySessionStore.ListSubkeys | domains/sessions/memory_store.go:103-115 | exactly the non-empty subpaths stored for the session, sorted |
| MemoryStore.ReachableAgrees | domains/sessions/memory_store.go:32-100 | after any appends and deletes, under any clock, the kept summaries are exactly the folds of what is stored |
| MemoryStore.AppendAgrees | domains/sessions/memory_store.go:32-60 | an append keeps the summaries in agreement with the transcripts |
| MemoryStore.DeleteAgrees | domains/sessions/memory_store.go:86-101 | so does a delete |
| Listing.ListSessionsFromStore | domains/sessions/list_from_store.go:27-111 | for every answer of the store, ids listed twice and failures included: the page by summaries with its gaps filled, the page of loaded rows, or the error; with ids listed once exactly `FastRows` and `SlowRows`, whose rows `LoadedRowsShow` describes |
| Listing.ListBySummaries | domains/sessions/list_from_store.go:44-90 | summary and gap slots are sorted, cut to the page, and only the page's gaps loaded |
| Listing.ListByLoad | domains/sessions/list_from_store.go:95-110 | every listed session is loaded, and the rows sorted and paged |
| Listing.DeriveViaLoad | domains/sessions/list_from_store.go:128-168 | one row for each listed session whose entries give one, whatever order the loads finish in |
| Listing.LoadedRowsShow | domains/sessions/list_from_store.go:95-160 | whatever a store lists and loads, the rows are exactly what the listed sessions' histories give, a bare row for one whose Load fails, the newest first and ties by id, and a listing is a page of them |
| Listing.FillPage | domains/sessions/list_from_store.go:75-89 | rows missing from the page are filled by Load and dropped if it gives none, gaps of one id twice included |
| Listing.PagesAgreeIff | domains/sessions/list_from_store.go:74-89 | dropping lost rows after cutting the page equals dropping them before, for every limit and offset, if and only if no kept row follows a lost one |
| Listing.FastIsSlowIff | domains/sessions/list_from_store.go:27-124 | for any coherent store the two listings agree on every page if and only if no kept row sorts after a gap that loads to nothing |
| Listing.LostRowShows | domains/sessions/list_from_store.go:74-89 | a coherent store whose newest session shows nothing: its first page is empty by summaries and not by loading |
| Listing.ListingsCanDiffer | domains/sessions/list_from_store.go:22-89 | a store of two sessions, one empty and one with a title, for which the two listings differ |
| Listing.AllRowsAgree | domains/sessions/list_from_store.go:51-67 | unpaged, summary slots and gap slots give each session the row its entries give |
| Listing.MemoryCoherent | domains/sessions/memory_store.go:32-132 | the memory store's summaries and listing are coherent in every reachable state |
| Listing.LaterCoherent | domains/sessions/list_from_store.go:28-57 | with any appends and deletes between the summaries and the listing, a summary not older than its listing still gives the row that loading gives, and without a page the two listings agree |
| Listing.MemoryFastIsSlow | domains/sessions/list_from_store.go:27-124 | in every state reached by Append and Delete, for every limit and offset and every map order, the summary-based listing is the listing that loads every session |
| Listing.SlowRowsShow | domains/sessions/list_from_store.go:95-160 | for the memory store they are exactly the rows that the stored histories give |
| Order.LessIff | domains/sessions/list_from_store.go:104-109 | ids are ordered byte-wise: a proper prefix first, else by the first byte that differs |
| Listing.ListMemory | domains/sessions/list_from_store.go:27-111 | listing a memory store, either way, returns that page of the rows its stored histories give, the newest first |
| Hex.PartRoundTrip | domains/sessions/file_store.go:38-46 | decoding an encoded name part gives the part back, whatever bytes it holds |
| Hex.PartInjective | domains/sessions/file_store.go:38-46 | different parts have different names |
| Hex.Read | domains/sessions/file_store.go:126-149 | scanning the file line by line gives the entries of its non-empty lines, or fails on the first bad one |
| Hex.ReadBack | domains/sessions/file_store.go:61-97 | what any appends wrote line by line is read back exactly |
| FileStore.PathsInjective | domains/sessions/file_store.go:48-59 | different keys have different transcript and summary paths, and none is another's |
| FileStore.FileSessionStore.Append | domains/sessions/file_store.go:61-97 | the stored map grows by the entries under the key and the files still hold exactly that map |
| FileStore.FileSessionStore.WriteSummary | domains/sessions/file_store.go:99-124 | the sidecar is replaced through a temporary file by the fold onto what it held, and the temporary file, left over or not, is gone |
| FileStore.FileSessionStore.Load | domains/sessions/file_store.go:126-149 | the entries the map holds for the key |
| FileStore.FileSessionStore.Delete | domains/sessions/file_store.go:180-192 | the session's files go, all of them for a main key, and no other file |
| FileStore.FileSessionStore.ListSubkeys | domains/sessions/file_store.go:194-215 | the decoded names are exactly the subpaths stored |
| FileStore.FileSessionStore.SessionIDs | domains/sessions/file_store.go:165-178 | the decoded directory names are exactly the sessions with any transcript, once each |
| FileStore.FileSessionStore.ListSessions | domains/sessions/file_store.go:151-163 | every main transcript of the project once, with the file system's mtime |
| FileStore.FileSessionStore.ListSessionSummaries | domains/sessions/file_store.go:215-233 | every summary of the project once, those missing, unreadable or another's left out |
| FileStore.WriteHolds | domains/sessions/file_store.go:61-124 | an append keeps files and map in agreement |
| FileStore.OthersSpared | domains/sessions/file_store.go:61-192 | an append or delete leaves the transcript of every other key and the summary of every other session as they were, but for the keys a deleted session takes along |
| FileStore.WriteStamped | domains/sessions/file_store.go:99-124 | an append leaves every sidecar stamped with its transcript's mtime, whatever the clock says |
| FileStore.FileAgrees | domains/sessions/file_store.go:18-22 | the sidecars are at all times the folds of the stored transcripts, stamped with their mtimes, as the in-memory store keeps them |
| FileStore.RemoveHolds | domains/sessions/file_store.go:180-192 | so does a delete |
| FileStore.SubkeysHold | domains/sessions/file_store.go:194-215 | a subpath is found in the directory if and only if it is stored |
| FileStore.ListedHold | domains/sessions/file_store.go:151-178 | a session is found in the project's directory if and only if its main transcript is stored |
| FileStore.Bisimilar | domains/sessions/file_store.go:38-213 | after any appends and deletes the two stores load the same entries, list the same subpaths and sessions, have summaries of the same sessions, and derive the same session info, mtimes aside |
| FileListing.FileFastIsSlow | domains/sessions/file_store.go:18-22 | after any appends and deletes, on every page, in any directory order and under any clock, the summary-based listing of the file store is the one that loads every session |
| FileListing.ListFiles | domains/sessions/list_from_store.go:27-111 | listing a file store, either way, returns that page of the rows its stored transcripts' histories give, the newest first |
| Import.AppendJSONLInBatches | domains/sessions/import_to_store.go:148-190 | the appended batches are the parsed lines in order; none is empty, over the size, or 1 MiB without its last line; all but the last reached a limit; on a bad line, failed read or failed append whole batches of the first lines were appended |
| Import.TakeLine | domains/sessions/import_to_store.go:166-181 | a line is skipped, refused or batched, and the batch appended when it reaches a limit |
| Import.LineIs | domains/sessions/import_to_store.go:166-173 | a line is skipped if nothing is left of it without its end, refused if that is no object, and otherwise one entry as long as that |
| Import.ImportReadsBack | domains/sessions/import_to_store.go:164-190 | entries written one a line are imported entry by entry, whatever comes before and after |
| Import.BadLineStops | domains/sessions/import_to_store.go:171-173 | a line that is no object ends the import after exactly the entries before it |
| Import.BatchingUnique | domains/sessions/import_to_store.go:166-181 | the limits alone decide where every batch ends: any two batchings of the same lines that respect them are equal |
| ProjectKey.HashStepIs | domains/sessions/project_key.go:53-57 | a step of the hash with each 32-bit operation wrapping is one wrap of 31 times the value so far plus the unit |
| ProjectKey.SimpleHash | domains/sessions/project_key.go:53-63 | the loop computes the 31-polynomial of the UTF-16 code units as a signed 32-bit value, written in base 36 |
| ProjectKey.HashParses | domains/sessions/project_key.go:58-63 | the absolute value never overflows, prints in one to six digits and parses back |
| ProjectKey.SanitizePath | domains/sessions/project_key.go:35-49 | letters and digits kept, anything else a dash, cut at 200 with the hash of the whole path |
| ProjectKey.CleanIs | domains/sessions/project_key.go:36-44 | at each of the first 200 places the name has the path's own character if that is an ASCII letter or digit, and a dash if it is not |
| ProjectKey.NameIsBounded | domains/sessions/project_key.go:35-49 | every name is at most 207 ASCII letters, digits and dashes |
| ProjectKey.NamesAreFixed | domains/sessions/project_key.go:35-49 | every such name of 200 or fewer is its own name |
| ProjectKey.LongNamesAgreeIff | domains/sessions/project_key.go:46-49 | two long paths share a name if and only if their first 200 characters clean alike and their hashes have one magnitude |
| RunEnd.SessionState.Set | domains/agent/runend.go:102-106 | the state is reported and is the latest, the ledger unchanged |
| RunEnd.SessionState.Track | domains/agent/runend.go:110-138 | the ledger after the message, and settled exactly on a step from non-empty to empty |
| RunEnd.SessionState.Consume | domains/agent/runend.go:212-245 | what one message delivers, changes, arms and ends: the step whose runs `ArmedIff`, `WhyEnded` and `DeliversAll` describe |
| RunEnd.SessionState.Run | domains/agent/runend.go:174-267 | the select loop over any sequence of choices is `Exec`: same deliveries, same end, same state left for the next Query |
| RunEnd.LedgerClosedForm | domains/agent/runend.go:110-138 | after any history an agent is tracked exactly when a message put it in flight and none since took it off, listing levels included |
| RunEnd.QueryKeeps | domains/agent/runend.go:193-245 | what a Query leaves of the CLI's record, whatever the select picks, is what the messages it consumed say, but for a last one its caller stopped at |
| RunEnd.QueryLedgerIff | domains/agent/runend.go:210-233 | the ledger a Query leaves is the closed form over everything it consumed if and only if its caller did not stop it, or stopped it at a message that puts in flight only what the history before has in flight and takes off only what it has not |
| RunEnd.ClientLedger | domains/agent/runend.go:174-267 | over consecutive Queries an agent is tracked exactly when a message heard put it in flight and none heard since took it off |
| RunEnd.StoppedMisses | domains/agent/runend.go:228-233 | a Query stopped at the start of an agent leaves the ledger empty, and the next one ends at its first result |
| RunEnd.NeverWedged | domains/agent/runend.go:193-254 | in every reachable state, a seen result with an empty ledger and no ceiling armed means the CLI has reported a state that is not idle |
| RunEnd.NeverEndsEarly | domains/agent/runend.go:193-267 | a run that ends by itself has delivered a result of its own and has no tracked agent in flight; `CeilingEnds` adds that a reported state stops the ceiling |
| RunEnd.EndsAtFirst | domains/agent/runend.go:154-254 | with no ceiling firing a run consumes exactly up to the first message that is an end |
| RunEnd.OneBlockEach | domains/agent/runend.go:193-254 | a stream of blocks that open with running, hold a result, have idle only last and settle every agent is consumed one block a Query, nothing leaking to the next |
| RunEnd.DeliversAll | domains/agent/runend.go:193-267 | over any choices of the select, what a run delivers is every frame it consumed, in order, but the host-only states, and the error that ends it: the context's, one on errCh that is not nil, or one left when msgCh closes |
| RunEnd.WhyEnded | domains/agent/runend.go:193-267 | why a run ended: by its caller, a closed channel, an error or the context exactly at the first such event, and otherwise at a result, an idle or the ceiling |
| RunEnd.ArmedIff | domains/agent/runend.go:210-252 | in every waiting state the ceiling is armed if and only if a result came, or a message after one took the last agent off, and since then no state was reported and no ceiling fired |
| RunEnd.CeilingEnds | domains/agent/runend.go:246-254 | a run ends at its ceiling only if it was armed so when it fired and no agent was in flight by the closed form |
| RunEnd.CeilingEndsIff | domains/agent/runend.go:246-254 | a ceiling that fires in a waiting state ends the run if and only if so |
| Send.ReachableOk | domains/transport/subprocess/subprocess.go:132-219 | in every interleaving one Send at most is between lock and unlock, and the pipe holds what each Send has put there in lock order |
| Send.NilMeansWhole | domains/transport/subprocess/subprocess.go:181-209 | a Send that returned nil has its whole line on the pipe, contiguously and once |
| Send.Outcomes | domains/transport/subprocess/subprocess.go:181-214 | over every run, why a Send came back: nil for a line written whole, an error of the write for a write that failed, and its context's error only if it was stopped before it started or wrote, its deadline could not be set, or its write was not whole |
| Send.WholeMeansNil | domains/transport/subprocess/subprocess.go:205-209 | conversely a Send whose line was written whole comes back nil, unless the transport is done or its deadline could not be set |
| Send.LateReturns | domains/transport/subprocess/subprocess.go:205-214 | in every continuation a Send that waits on a cancelled write comes back nil if the write ended whole, with its context's error and stdin untouched if it stopped at zero bytes, and otherwise as one that closes stdin |
| Send.WhoCloses | domains/transport/subprocess/subprocess.go:189-214 | stdin is closed only by Close or by a Send that came back with its context's error after its deadline could not be set or its write ended neither whole nor at zero bytes |
| Send.CancelledNeverWrites | domains/transport/subprocess/subprocess.go:189-211 | one cancelled before it wrote, or stopped at zero bytes, puts no byte there, then or in any continuation |
| Send.WholeLinesUntilCut | domains/transport/subprocess/subprocess.go:161-179 | until some write is cut off part-way the pipe is whole lines and at most a first part of the one being written |
| Send.OnlyOwnCancelCuts | domains/transport/subprocess/subprocess.go:172-179 | a write deadline is in force only for the Send whose own caller set it; it is clear when the next takes the lock |
| Send.CancelFinishes | domains/transport/subprocess/subprocess.go:132-215 | in every interleaving a Send whose context has ended, wherever it is, has a step of its own it can take, no step of the others sets it back, and ten turns at most bring it back |
| Send.LaterQuietIff | domains/transport/subprocess/subprocess.go:132-219 | in every reachable state: no Send that starts from there on ever adds a byte if and only if stdin is closed or the transport is done |
| Send.LaterSendsAddNothing | domains/transport/subprocess/subprocess.go:132-219 | so after a Send cut off part-way by its cancel has returned, or one has returned closed, no Send that starts then adds a byte |
| Send.QueuedStillWrites | domains/transport/subprocess/subprocess.go:161-214 | a run of two Sends in which the second, queued on the lock, puts its whole line behind the first part of the one cut off, before stdin is closed |
| Control.RequestIdsDiffer | shared/reqid/reqid.go:14-22 | ids of different calls differ, whatever the random suffixes |
| Control.NeverPanics | domains/agent/session_manager.go:257-351 | in every interleaving no channel is closed twice or sent on once closed |
| Control.FirstResponseWins | domains/agent/session_manager.go:333-475 | a caller gets only the first response handled for its own id; one handled before a cancel or drain is what it sees, its context aside |
| Control.HandledAre | domains/agent/session_manager.go:333-344 | in every interleaving the responses handled are, id and body and in order, exactly those the labels say: each that found its id in the table while the reader was idle, once it was put |
| Control.Completes | domains/agent/session_manager.go:333-475 | in every reachable state a waiting caller whose id is in the table and has no response yet gets exactly the body of the next one |
| Control.StrayResponse | domains/agent/session_manager.go:333-338 | a response for an id that is not in the table changes nothing |
| Control.WhyLeft | domains/agent/session_manager.go:449-475 | a caller comes back with its context's error only once its context has ended, and with an error of Send only if its Send failed |
| Control.DrainReleases | domains/agent/session_manager.go:257-269 | when Receive fails every request in the table then has left or can leave by the time the loop ends |
| Control.ClosedIff | domains/agent/session_manager.go:257-351 | in every interleaving a channel is closed if and only if its id was taken out by a cancel or visited by Range, but for the step between |
| Control.ReleasedIff | domains/agent/session_manager.go:257-295 | after the loop has ended, however it did, a waiting request comes back, its context aside, if and only if a response was handled for its id, a cancel took it out or Range visited it |
| Control.StopsReleasesIff | domains/agent/session_manager.go:270-295 | when the loop ends without a drain only the first two count |
| Control.StrandedReachable | domains/agent/session_manager.go:270-295 | a run of one request made, stored and sent before the loop stops leaves it waiting for ever |
| Control.ReachableInv | domains/agent/session_manager.go:257-475 | the invariant the four rest on holds in every interleaving, callers storing and deleting while the table is drained included |
| Mirror.SameKeyIff | domains/agent/mirror.go:157-176 | two paths have one key if and only if they are equal up to ".jsonl" at the end |
| Mirror.JsonlKeysDiffer | domains/agent/mirror.go:157-176 | different ".jsonl" paths have different keys |
| Mirror.KeyIs | domains/agent/mirror.go:154-181 | a path has a key if and only if it is inside the projects directory and is <project>/<session>.jsonl, or <project>/<session>/ and at least two parts more, which are the subpath without a ".jsonl" at its end |
| Mirror.TranscriptMirror.Enqueue | domains/agent/mirror.go:83-101 | the frame is pending or flushed with the rest, the counters are the totals of what is pending, and both limits hold |
| Mirror.TranscriptMirror.Flush | domains/agent/mirror.go:105-127 | one group a path in first-seen order, everything pending for it in arrival order, and nothing pending after |
| Mirror.TranscriptMirror.Append | domains/agent/mirror.go:129-152 | the attempts made, and an error exactly when the last did not succeed |
| Mirror.Regroup | domains/agent/mirror.go:109-116 | the distinct paths in first-seen order and each one's entries in order |
| MirrorOrder.FlushKeepsOrderIff | domains/agent/mirror.go:105-127 | for given frame paths, a flush into a store that never fails keeps the order of arrival under every key, whatever the frames hold, if and only if no frame of another path with the same key comes between two of one path |
| MirrorOrder.CrossedModesDiffer | domains/agent/mirror.go:98-127 | for any two paths with one key, three frames that batched and eager mode store in different orders |
| MirrorOrder.SharedKeysExist | domains/agent/mirror.go:157-176 | two such paths |
| MirrorOrder.MirrorConserves | domains/agent/mirror.go:83-127 | over every sequence of frames and flushes in which no flush is so crossed, into a store that never fails, each key ends with exactly the entries that arrived for it, in order |
| MirrorOrder.BatchedIsEager | domains/agent/mirror.go:83-127 | so batched mode with a last flush leaves every key as eager mode does |
| MirrorOrder.MirroredLoadsBack | domains/sessions/memory_store.go:32-71 | a session so mirrored into the memory store loads back as it was written |
| MirrorOrder.ApartIsCalm | domains/agent/mirror.go:83-127 | no flush of a run is crossed if the frames of the whole run are not |
| MirrorOrder.JsonlIsApart | domains/agent/mirror.go:157-176 | frames of different ".jsonl" files never are |
| MirrorOrder.EagerIsCalm | domains/agent/mirror.go:98-100 | nor is any eager run, whatever the paths |
| MirrorOrder.PendingBounded | domains/agent/mirror.go:98-100 | after every frame at most 500 entries and 1 MiB are pending, none in eager mode |
| MirrorRetry.AttemptsBounded | domains/agent/mirror.go:129-152 | one to three attempts of the whole batch, none after a success or a timeout |
| MirrorRetry.GroupEndsOnce | domains/agent/mirror.go:117-126 | every path's group ends in one successful append or in one report, never both |
| MirrorRetry.ExactlyOnce | domains/agent/mirror.go:129-152 | whatever an adapter that skips the uuids it holds held before, whatever part of a batch failed attempts land and whenever a timed-out one does: only entries of the batch are added, no uuid is held twice, and success leaves every entry of the batch held |
| MirrorRetry.NeverMoreIff | domains/agent/options.go:124-127 | in every outcome of the attempts no entry ends more often than it was held and appended, if and only if every entry of the batch has a uuid |
| MirrorRetry.JustOnceIff | domains/agent/options.go:124-127 | in every outcome without an error each entry of the batch is added exactly once, if and only if the entries have uuids of their own that are not held yet |
| MirrorRetry.NewExactlyOnce | domains/agent/mirror.go:129-152 | counted: entries with uuids of their own that are new to the adapter are added once each on success, and at most once on failure |
| MirrorRetry.NamelessTwice | domains/agent/mirror.go:129-152 | an entry without a uuid, landed by a failed attempt, is stored once more than it was appended |
| MirrorRetry.FlushExactlyOnce | domains/agent/options.go:121-127 | the same of a flush, whatever is pending and however paths share keys: a key it does not report ends with all that was pending for it held |
| MirrorRetry.RunExactlyOnce | domains/agent/mirror.go:83-152 | and of every run with a last flush, however attempts fail and however much later timed-out ones land: a key never reported ends with all that arrived for it held, no uuid twice |
| MirrorRetry.RunOnceEach | domains/agent/mirror.go:83-152 | counted over the run |
| ReadLoop.ReadLoop | domains/agent/session_manager.go:243-314 | the loop over any lines does what `Read` says, in that order |
| ReadLoop.Handle | domains/agent/session_manager.go:277-312 | what one line does to the mirror, to msgCh and to the loop |
| ReadLoop.WhyReadEnds | domains/agent/session_manager.go:250-312 | the loop reads up to the first line that ends it and sends what that line says: nil for an end, an error for an error line or one that does not parse, nothing when the context wins; without such a line nil exactly if the stream or the context ended |
| ReadLoop.OrderKept | domains/agent/session_manager.go:243-314 | the messages put are the converted lines in arrival order, mirror errors aside; when a result is put everything before it has had its attempts and nothing is pending; nothing is pending when msgCh closes, which is last |
| ReadLoop.StoredAtResult | domains/agent/session_manager.go:296-312 | with a store that never fails and nothing crossed, when a result is put the store holds under every key exactly what arrived before the result, in order |
| ReadLoop.StoredAtClose | domains/agent/session_manager.go:243-256 | and when msgCh closes everything that arrived |
| ReadLoop.HeldAtResult | domains/agent/session_manager.go:296-312 | however attempts go and land, when a result is put an adapter that skips the uuids it holds has all that arrived for a key before it, unless the key was reported by then, and no uuid twice |

## Left out

- JSON encoding and decoding: a codec is a parameter, assumed to round-trip and to write no raw newline (RFC 8259, section 7); a value's Go type is its JSON constructor.
- The wire structs, `ParseLine` and `FromWire`: messages and lines are the constructors `run` and `readLoop` tell apart.
- Regular expressions, Unicode classes, timestamp parsing, prompt cleaning and shortening: uninterpreted functions of the text.
- Random uuids and clocks: an injective supply of ids and an arbitrary clock, any value at every call.
- Session ids and keys in the file store are bytes, so hex naming (RFC 4648, section 8) covers every key Go can hold; the mtime of a transcript is whatever the file system reports after the append, permissions and directories as objects are not modelled, a path exists when a file under it does, and file system errors do not happen.
- `ListSubagentsFromStore`, `GetSubagentMessagesFromStore` and `GetSessionInfoFromStore`: thin wrappers over what is modelled.
- The goroutines and semaphore of `deriveViaLoad`: the rows are a map, which is what their order leaves undetermined.
- `Send` and `Control` are modelled on values, one step a label, and not as classes: what matters is the order of steps of several goroutines, which a method's frame cannot say.
- Send.WholeLinesUntilCut: counts a write as cut off when it returned with part of its line written, whether a deadline or another error stopped it.
- Write itself: chunks of any size, an error at any time, a deadline error only while a deadline is set; bytes may still land after stdin is closed if the write had begun before.
- Process start-up, CLI discovery, environments, pipes, the stdout pump and the shutdown timing of `Close`.
- Timers: armed, fired and stopped only, with no durations; `runEndCeiling`'s parsing is not modelled.
- Control requests from the CLI, permission, hook and MCP callbacks: they do not touch the pending table.
- The counter of request ids is unbounded; Go's wraps after 2 to the 63.
- Fork.ForkSessionViaStore: specified where its walk over progress entries ends, since where it does not the call never returns.
- ForkProofs.ForkKeepsConversation: for transcripts whose uuids are distinct, whose resolved parents come first and which hold no sidechain, meta or team turn, because the fork drops sidechain entries and the team name and the leaf search depends on both.
- MirrorOrder.MirrorConserves: for runs in which no flush is crossed, which `FlushKeepsOrderIff` shows to be what the order needs.
- MirrorRetry.NewExactlyOnce: for entries with uuids of their own that are new, which `JustOnceIff` shows to be what counting needs; `ExactlyOnce` is what holds of any others.
- Listing.LaterCoherent: the entries are loaded in the state that is listed; writes between the listing and a load are not modelled.
- `filepath.Rel` and `ToSlash`: the parts of a path relative to the projects directory are given.
- The older `FilesystemStore`, `operations.go`, `BuildCLIArgs`, `schemaFor` and JSON-RPC dispatch.
