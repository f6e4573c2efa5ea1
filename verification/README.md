# DocQA: verified models

A Dafny project that models the cores of DocQA, a multi-tenant document question-answering
service, and proves what they promise: the ingestion protocol and its version stamps, the
lifetime of content-addressed files, idempotency keys, the spend ledger, the chunker, the
streamed answer and its pinpoint quotes, the query event machine, and a handful of algorithms
(token bucket, edit distance, round-robin merge, reciprocal rank fusion, the rule interpreter).

`dafny verify dfyconfig.toml` checks everything.

## How the models are built

Protocols with several parties (`Ingestion`, `Files`, `Idempotency`, `Ledger`) are state machines:
a `State`, one `Step` per database transaction or Redis command, a function `Apply` that says what
a step does, and runs as sequences of states. Theorems quantify over all runs. Beside each stands a
class whose methods change the tables in place, as the source does, and are proved to leave exactly
the state `Apply` names; the theorems about runs are therefore about them.

Algorithms (`SlidingWindow`, `Sections`, `Chunking`, `Stream`, `Quotes`, `Spans`, `QueryRun`,
`TokenBucket`, `EditDistance`, `RoundRobin`, `Fusion`, `Rules`) keep their loops, and are proved
against specifications that do not mention them: a cutting with its uniqueness, nearest smaller
headings, all edit scripts, all cuts into deltas, a ranking. The event machine of `QueryRun`, handlers and
cancellation included, is proved to leave exactly a closed form of its inputs, and the theorems about
runs are about that form.

A function that specifies a method is no proof of anything by itself, so each has laws of its own
that do not use it: what a transaction leaves field by field, which run a world leads to, what a
pattern matches character by character, which verdict a lookup comes to by where the quotation occurs.

| file | what it models |
|---|---|
| `Common.dfy`, `Text.dfy` | shared vocabulary; Python's white space and stripping |
| `Ingestion.dfy`, `IngestionInvariant.dfy`, `IngestionTheorems.dfy`, `IngestionEffects.dfy`, `IngestionDatabase.dfy` | leases, fencing tokens, version stamps, and every other writer of documents and chunks; what each leaves behind |
| `Files.dfy`, `FileRemoval.dfy` | store under the lock against delete, check and unlink; what an undisturbed removal collects |
| `Idempotency.dfy` | one Redis cell, many clients |
| `Ledger.dfy` | admission against two scopes, guest import, settlement, pricing |
| `SlidingWindow.dfy`, `Sections.dfy`, `Breadcrumbs.dfy`, `Chunking.dfy`, `ChunkContents.dfy` | the chunker; what its sections and chunks say |
| `Stream.dfy`, `Marker.dfy`, `Cuts.dfy` | sentinel buffer and quote splitter; what the marker expression matches; when the cut into deltas matters |
| `Quotes.dfy`, `Spans.dfy`, `Resolution.dfy`, `QuoteLines.dfy` | normalisation with an index map, location, merging; sections, citations and what raises; how quotations are written |
| `QueryRun.dfy`, `Outcomes.dfy` | the event machine of one query; what every run comes to |
| `TokenBucket.dfy`, `EditDistance.dfy`, `RoundRobin.dfy`, `Fusion.dfy`, `Rules.dfy` | algorithms with sharp specifications |

## What the proofs found

Places where the code does not do what its comments suggest. The models follow the code; each
finding names the lemma with the input that shows it, and the one with the exact condition.

- A query can end without any record. `record_incomplete` resolves quotes before it records, so if
  that raises, neither it nor the last resort in `finally` records anything. Input:
  `QueryRun.SharpSLosesRecord`, and with a client that leaves `QueryRun.LosesRecordWhenLeft`;
  condition: `QueryRun.RecordMissingIff` for a run, `QueryRun.ContextLosesIff` for the context blocks.
- Resolving quotes does raise: the index map assumes that case folding keeps one character one
  character. Input: the German sharp s (`Quotes.SharpSRaises`); conditions: `Quotes.LocateFaithfulIff`
  for right spans, `Quotes.RaisesIff` for an index off the map, and `Resolution.ResolvingRaisesIff` for
  resolving as a whole.
- The quote splitter depends on how the text is cut into deltas: a delta that ends with the word
  "quotes" is taken for the marker line, and the rest of a longer word goes into the section. Input:
  `Stream.CutMatters`; condition: `Cuts.CutAgreesIff`. Nothing is lost in any case
  (`Stream.SplitConserves`).
- The hold-back of 24 characters is commented as longer than any decorated marker; decorations and
  blanks may repeat without bound, so it is not, and part of a marker line can be shown. Input:
  `Cuts.LongMarkerSlips`; condition: `Cuts.LineShownIff`.
- An account's day can exceed the limit through guest import from several addresses. Input:
  `Ledger.AccountCanExceedLimit`; condition: `Ledger.ImportKeepsAccountCapIff`. What holds instead is
  the limit for each address the account was seen at (`Ledger.AccountCap`).
- The source sync stores a file in one transaction and commits its row in another, without the
  lock; a page committed in between a check and its unlink dangles. Input: `Files.SyncCanDangle`;
  condition: `Files.SyncCommitSoundIff`.
- A closed window may be contained in the next one. Input: `SlidingWindow.WindowCanRepeat`; condition:
  `SlidingWindow.ContainedIff`. Every window still has a fresh unit (`SlidingWindow.WindowsAdvance`).
- An idempotency key whose entry expires while its handler runs admits a second handler. Input:
  `Idempotency.ExpiryAdmitsTwoHandlers`; condition: `Idempotency.RemovalHarmlessIff`. The first handler
  then does no harm (`Idempotency.StaleWinnerIsHarmless`).
- An idempotency key can stay locked with nobody at work although Redis answers: the validity check
  after the handler is a database read whose exception is swallowed before either script runs. Input:
  `Idempotency.RaisedCheckLocksKey`; condition: `Idempotency.OrphanedIff`.

## Model

| member | source | states |
|---|---|---|
| `IngestionInvariant.StepKeepsInv` | app/ingestion/tasks.py:231-334 | Every one of the 18 kinds of transaction that touch documents or chunks (claim, store, fail, back off, recover, retry, reprocess, sync update, delete, vanish, wipe, extraction writers, ...) keeps: PROCESSING exactly when a token is held, a token is held by one document, attempts at most 4, chunk rows belong to documents, (document, index) is unique, facts ids name facts rows. |
| `IngestionInvariant.InvAlways` | app/ingestion/tasks.py:231-334 | The same at every point of every interleaving. |
| `IngestionTheorems.SupersededForever` | app/ingestion/tasks.py:322-323 | A token that no longer sits on its document never sits on any document again, whatever runs in between. |
| `IngestionTheorems.WriteFencing` | app/ingestion/tasks.py:157-159 | Write fencing: whatever a superseded run still does (store, fail, back off) changes neither documents, chunks nor collections. |
| `IngestionTheorems.TakeoverNeedsExpiredLease` | app/ingestion/tasks.py:245-250 | Another delivery takes a running document over only after its lease expired. |
| `IngestionTheorems.OneRunPerDocument` | app/ingestion/tasks.py:163-178 | In every reachable state the ingested rows of a document are none or exactly the complete draft list of one run, stored while that run held the token: never a mixture, a part or a duplicate. |
| `IngestionTheorems.StepStamps` | app/ingestion/tasks.py:193-193 | Any transaction moves the stamps of any collection only forward, bumps `source_generation` if it changes the collection's rows, and one of the two stamps if it changes what READY documents show. |
| `IngestionTheorems.StampsAlongRun` | app/ingestion/tasks.py:163-193 | The same between any two states of a run. |
| `IngestionTheorems.StampSandwich` | app/conversations/context.py:257-269 | Equal stamps at two moments mean identical chunk rows (and, for both stamps, identical visible rows) at every moment between them. |
| `IngestionTheorems.StaleHistoryReset` | app/conversations/context.py:257-269 | Soundness of the reader of the stamp: a conversation history that is kept was recorded over exactly the chunk rows of now; one with any other stamp is reset. |
| `IngestionTheorems.DataVersionFence` | app/generation/service.py:192-200 | While `data_version` stays the same a READY document stays READY with the same ingested rows, so an answer recorded under the version it started from cites rows no run replaced. |
| `IngestionTheorems.StepAttempts` | app/ingestion/tasks.py:258-270 | Without a reset, the attempt counter counts exactly the successful claims. |
| `IngestionTheorems.StepAbsorbs` | app/ingestion/tasks.py:243-244 | READY and FAILED are final without a reset. |
| `IngestionTheorems.BoundedAttempts` | app/ingestion/tasks.py:243-271 | A reset-free run holds at most four successful claims of a document, and none once it is terminal. |
| `IngestionTheorems.ExhaustedClaimFails` | app/ingestion/tasks.py:258-264 | A claim that acts ends the document exactly when its four attempts are used up, and then it was an expired PROCESSING row. |
| `IngestionTheorems.DueIsClaimable` | app/ingestion/tasks.py:348-358 | The recovery query selects exactly the documents on which a delivery would act. |
| `IngestionEffects.ClaimEffects` | app/ingestion/tasks.py:240-271 | A delivery takes a document for 660 seconds, as its next attempt, exactly when the document is pending with its back-off over (or the delivery is eager) or its lease has run out, and fewer than four attempts are behind it; with four behind it the document fails, and in any other case nothing changes. |
| `IngestionEffects.StoreEffects` | app/ingestion/tasks.py:157-193 | A store by the holder of the token leaves the document READY without token and lease, for its rows exactly its drafts, every other row as it was, and `source_generation` one higher; without the token it changes nothing. |
| `IngestionEffects.StoreShows` | app/ingestion/tasks.py:163-179 | What retrieval sees of the document then is exactly one row per draft, with that draft's index and content. |
| `IngestionEffects.OnlyStoresMakeReady` | app/ingestion/tasks.py:179-179 | A store by the token holder makes a document READY, and no other step of any kind does. |
| `IngestionEffects.ReadyIff` | app/ingestion/tasks.py:179-179 | In every run from an empty database a document is READY exactly when the last step that changed its status was a store by the holder of its token. |
| `IngestionEffects.EmbeddingFailedEffects` | app/ingestion/tasks.py:310-330 | An unavailable provider hands the document back, pending, for 10, 20 or 40 seconds after the first three attempts and fails it after the fourth. |
| `IngestionEffects.MarkFailedEffects` | app/ingestion/tasks.py:63-74 | A run that fails its document needs its token and gives it up with the lease; without it nothing changes. |
| `IngestionEffects.RecoverEffects` | app/ingestion/tasks.py:359-375 | The sweep stamps exactly the documents it picked and changes nothing else of them or of anything. |
| `IngestionEffects.DelayDoubles` | app/ingestion/tasks.py:319-319 | The wait doubles with every attempt, from ten seconds. |
| `IngestionEffects.DeleteEffects` | app/api/v1/documents.py:429-448 | A deletion takes the document, its rows and its extractions and nothing else; the data version moves, the generation exactly if there were rows. |
| `IngestionEffects.RemoveVanishedEffects` | app/sources/sync.py:161-184 | Whatever the list of vanished documents repeats or names in vain, exactly the listed documents and their rows go. |
| `IngestionEffects.WipeEffects` | app/cli.py:132-151 | A wipe takes exactly the collection's documents and rows; the generation moves exactly if there were rows. |
| `IngestionEffects.FinishExtractionEffects` | app/extraction/service.py:274-303 | The old facts row goes, and unless the text is empty a new one comes after every other row of the document, which the extraction remembers; no other row changes. |
| `IngestionEffects.PatchExtractionEffects` | app/extraction/service.py:306-317 | Editing an extraction takes its facts row and no other, and the extraction forgets it. |
| `IngestionEffects.FactsRowGoes` | app/extraction/service.py:306-317 | The facts row a deleted extraction left goes, if it is the document's, and no other row. |
| `IngestionEffects.ResetEffects` | app/ingestion/service.py:270-289 | A retry acts on a FAILED document only; it, like a sync of a changed page, makes the document pending with nothing behind it, under the next data version and the same generation. |
| `IngestionEffects.ReprocessEffects` | app/cli.py:165-198 | Every target is pending with nothing behind it, every other document and every row is as before, and one new data version covers all of it. |
| `IngestionEffects.UploadEffects` | app/ingestion/service.py:185-197 | An upload is pending and due at once, with nothing behind it. |
| `IngestionEffects.ResetIsDue` | app/ingestion/service.py:270-289 | After a retry, a reprocess or a sync a document is due at once: the sweep may pick it and any delivery takes it. |
| `IngestionEffects.FreshAttempts` | app/ingestion/service.py:270-289 | A reset gives four fresh attempts: until the next reset a claim of a claimable document takes it exactly if fewer than four have. |
| `IngestionDatabase.Database.ClaimDocument` | app/ingestion/tasks.py:231-271 | The claim transaction leaves the tables as the claim step says and yields the attempt number exactly when the run may go on. |
| `IngestionDatabase.Database.StoreChunks` | app/ingestion/tasks.py:131-195 | The fenced store: all old rows of the document go, all drafts come, the document is READY without token and lease and the stamp moves, all together, or nothing does. |
| `IngestionDatabase.Database.InsertDrafts` | app/ingestion/tasks.py:165-178 | The row inserts yield exactly the run's draft rows under consecutive ids. |
| `IngestionDatabase.Database.MarkFailed` | app/ingestion/tasks.py:302-309 | Failing a document needs the token, like everything a run writes. |
| `IngestionDatabase.Database.EmbeddingFailed` | app/ingestion/tasks.py:310-330 | Back-off of 10 * 2^(attempt - 1) seconds with the token given up, or failure after the fourth attempt. |
| `IngestionDatabase.Database.RecoverIngestion` | app/ingestion/tasks.py:341-383 | Reserves exactly the due, unthrottled documents it republishes. |
| `IngestionDatabase.Database.RetryFailedDocument` | app/ingestion/service.py:270-289 | Only a FAILED document is reset; the data version moves. |
| `IngestionDatabase.Database.ReprocessDocuments` | app/cli.py:165-198 | Resets the targets and bumps the data version once, if there are any. |
| `IngestionDatabase.Database.DeleteDocument` | app/api/v1/documents.py:429-448 | The document and its chunks go; both stamps move if it had chunks. |
| `IngestionDatabase.Database.RemoveVanished` | app/sources/sync.py:161-184 | One transaction removes all vanished documents, bumping the stamps per document. |
| `IngestionDatabase.Database.WipeCollection` | app/cli.py:132-151 | All documents and chunks of one collection go and no others; the stamps move. |
| `IngestionDatabase.Database.FinishExtraction` | app/extraction/service.py:274-303 | The old facts row is dropped and the new one appended after the largest index, each with its own bump of the generation. |
| `IngestionDatabase.Database.RemoveFactsChunk` | app/extraction/service.py:306-317 | Dropping a facts row bumps the generation of the document's collection. |
| `Files.ExtensionsIdentify` | app/ingestion/mime.py:20-31 | The table from media type to extension is injective and never yields the extension of the derived copies. |
| `Files.ReferencedByAddress` | app/ingestion/service.py:252-263 | Looking rows up by digest and media type finds every row that points at the address to be unlinked. |
| `Files.StepKeepsInv` | app/storage/lifecycle.py:1-20 | The lock discipline: every step of upload, deletion, wipe and stop keeps committed originals in place, stored-but-uncommitted ones in place, and an address about to be unlinked unreferenced. |
| `Files.CommittedOriginalsSurvive` | app/storage/lifecycle.py:1-6 | In every interleaving, stops anywhere and source syncs included, every committed document's original exists, as long as each unlocked commit of a source sync is harmless: refused by the unique constraint, or its file is there and no process is about to unlink it. |
| `Files.SyncCommitSoundIff` | app/sources/sync.py:220-242 | The source sync's commit without the lock: everything that can follow is free of dangling references if and only if, at the commit, the file is still there and no process is past its check and about to unlink it. |
| `Files.SyncCanDangle` | app/sources/sync.py:214-263 | A run from an empty database in which the split of store and commit leaves a committed page without its file. |
| `Files.Depot.IsReferenced` | app/ingestion/service.py:252-263 | The reference check answers yes exactly when a committed row of the tenant points at the target. |
| `Files.Depot.StoreFile` | app/ingestion/service.py:176-178 | Storing under the lock puts the file in place and nothing else. |
| `Files.Depot.CommitRow` | app/ingestion/service.py:195-212 | The row is committed, and the lock released, exactly when no other row of the collection has the digest. |
| `Files.Depot.DeleteRows` | app/api/v1/documents.py:447-448 | The rows go before any file does. |
| `Files.Depot.DeleteIfUnreferenced` | app/ingestion/service.py:226-267 | The file goes exactly when no committed row of the tenant points at it. |
| `FileRemoval.TargetsAre` | app/api/v1/documents.py:429-448 | A removal looks at every document's original, and with derived copies asked for at its searchable copy, and at nothing else. |
| `FileRemoval.RemovalCompletes` | app/ingestion/service.py:226-267 | A removal nobody interferes with takes exactly its rows, and of the files it looks at exactly those that no remaining row of the tenant points at; the lock is free again. |
| `FileRemoval.SweepCompletes` | app/ingestion/service.py:226-267 | The same for the files of rows already gone, as after a wipe or a vanished source page. |
| `FileRemoval.UploadCompletes` | app/ingestion/service.py:176-212 | An upload nobody interferes with has its file in place, and its row committed unless its collection has the digest already. |
| `FileRemoval.SyncCommits` | app/sources/sync.py:214-263 | A synced page is committed, new or changed, unless the collection has the digest already; the file of the refused page, or of the page before the change, is left to the sweep. |
| `Idempotency.OnlyOwnEntries` | app/core/idempotency.py:34-42 | The only changes a request makes to the cell: claim it when empty, replace or delete its own token. |
| `Idempotency.TokenStaysGone` | app/core/idempotency.py:79-82 | A token that left the cell never returns to it. |
| `Idempotency.StaleWinnerIsHarmless` | app/core/idempotency.py:88-112 | With expiry and purge anywhere, a winner whose entry is gone never overwrites or deletes anybody's entry. |
| `Idempotency.OneHandlerAtATime` | app/core/idempotency.py:81-90 | In every run in which no entry expires or is purged under a request at work, at most one handler is at work at any moment, and none while a result is stored. |
| `Idempotency.RemovalHarmlessIff` | app/core/idempotency.py:78-82 | The condition is exact: while another request is still to come, removing an entry leaves everything that can follow (without another such removal) exclusive if and only if nobody is at work under it. |
| `Idempotency.StoredIsFinal` | app/core/idempotency.py:98-107 | A stored result stays until it expires or is purged, and until then no handler starts. |
| `Idempotency.ReplaysAgree` | app/core/idempotency.py:114-132 | Without expiry and purge all replays hand out the same response. |
| `Idempotency.ExpiryAdmitsTwoHandlers` | app/core/idempotency.py:78-82 | Expiry under a running handler admits a second one (a run of three steps that shows it). |
| `Idempotency.OrphanedIff` | app/core/idempotency.py:91-112 | In every run an in-flight entry has nobody at work under it exactly when an owner ended without its script (validity check raised, Redis not reached, stopped) and the entry was not removed since. |
| `Idempotency.QuietKeyUsableIff` | app/core/idempotency.py:91-97 | A key nobody works on replays or admits the next request exactly when no entry was left behind in that way; a handler that raises and releases its key never locks it. |
| `Idempotency.RaisedCheckLocksKey` | app/core/idempotency.py:98-112 | It takes no failure of Redis: handler returns, validity check raises, and the key stays locked with nobody at work (a run that shows it). |
| `Idempotency.ReplayProvenance` | app/core/idempotency.py:125-132 | In every run a replayed response was returned earlier by a handler, and for a fingerprinted replay by one of a request with the same fingerprint. |
| `Idempotency.PublishEffects` | app/core/idempotency.py:98-112 | While the entry is still the winner's own: a response without a check or with a check passed is stored with its fingerprint, one found stale frees the key, and one whose check raised or whose script never ran leaves the entry; the caller gets the response in any case, and nobody else's state changes. |
| `Idempotency.CommandEffects` | app/core/idempotency.py:82-120 | Who finds the key empty works under it and everybody else has lost; a handler that raised frees its own entry; a loser finds what is stored or hears of a request at work. |
| `Idempotency.AnswerEffects` | app/core/idempotency.py:121-132 | A loser replays what it found exactly if its check passes or it has none, and its fingerprint is the entry's or it has none; else it is refused. |
| `Idempotency.RetryReplays` | app/core/idempotency.py:98-132 | Over runs: once a response has been kept, and until the entry is removed, no handler starts, and whoever reads the entry and answers replays exactly that response, or is refused for its check or its fingerprint. |
| `Idempotency.KeyCell.Claim` | app/core/idempotency.py:82-82 | SET NX: wins exactly when the cell is empty. |
| `Idempotency.KeyCell.DeleteIfMine` | app/core/idempotency.py:34-36 | The release script deletes the caller's token and nothing else. |
| `Idempotency.KeyCell.ReplaceIfMine` | app/core/idempotency.py:37-42 | The store script replaces the caller's token and nothing else. |
| `Idempotency.KeyCell.Conclude` | app/core/idempotency.py:98-112 | After a handler that returned: store a response that may be kept, release a stale one, no script if the validity check raised or Redis is out of reach; the response goes out in each case. |
| `Idempotency.KeyCell.Abandon` | app/core/idempotency.py:91-97 | After a handler that raised: release if Redis can be reached, and pass the error on. |
| `Idempotency.KeyCell.Fetch` | app/core/idempotency.py:114-120 | An empty or in-flight cell refuses the loser; a stored result is kept for it. |
| `Idempotency.KeyCell.Respond` | app/core/idempotency.py:121-132 | A replay happens exactly when the data are still valid and the fingerprint, if given, matches. |
| `Ledger.StepKeepsInv` | app/billing/service.py:125-188 | Reserve, settle and summary keep: allocations are own address, own payer and guest rows only; what each address, and each payer, is charged within its reservations stays within the limit. |
| `Ledger.DailyCaps` | app/billing/service.py:136-163 | After any sequence of transactions an address's day, and the sum of what a payer pays for, is at most the limit plus what settlements recorded beyond their reservations. |
| `Ledger.AllocationsExactly` | app/billing/service.py:47-70 | An account's scope holds exactly its own rows and the same-day guest rows that existed at an address when it was seen there; an address's scope exactly its own rows. |
| `Ledger.ImportIdempotent` | app/billing/service.py:57-70 | Importing twice is importing once. |
| `Ledger.ImportCommutesWithSettle` | app/billing/service.py:57-70 | Import and settlement commute: a pending attempt settles for both identities. |
| `Ledger.AccountCap` | app/billing/service.py:47-70 | The cap of an account over any run: its day is at most the limit for each address it was seen at that day, plus what settlements recorded beyond their reservations. |
| `Ledger.ImportKeepsAccountCapIff` | app/billing/service.py:54-70 | Import keeps an account within the limit exactly when its own charge plus the guest charge it is about to inherit fits. |
| `Ledger.AccountCanExceedLimit` | app/billing/service.py:54-70 | One account at two addresses can be charged twice the limit (a run that shows it). |
| `Ledger.AdmissionCap` | app/billing/service.py:133-160 | Right after an admission every scope of the actor is within the limit, imports included. |
| `Ledger.AdmitsIff` | app/billing/service.py:133-153 | An amount is admitted exactly if it is not negative and fits what the address has used and what the account has used and is about to inherit. |
| `Ledger.ReserveMoves` | app/billing/service.py:133-163 | An admitted amount becomes pending, for that day in each scope of the actor and in no other; nothing already spent changes. |
| `Ledger.SettleMoves` | app/billing/service.py:166-188 | Settling moves the reservation out of what is pending and the actual cost into what is spent, in exactly the scopes the row belongs to, and only the first settlement does. |
| `Ledger.SummaryPredictsAdmission` | app/billing/service.py:113-122 | What the summary promises: right after it, a positive amount is admitted exactly when it is at most the reported remainder of the fuller scope. |
| `Ledger.UsageWithinReservation` | app/billing/pricing.py:21-42 | Token use within the stated bounds never costs more than was reserved, rounding up included. |
| `Ledger.CostPerToken` | app/billing/pricing.py:21-29 | Nothing costs nothing, one more prompt token costs the input rate and one more completion token the output rate. |
| `Ledger.PriceIsLeast` | app/billing/pricing.py:21-29 | The price is the least whole number of units of 0.00000001 USD not below the exact cost; a negative count has none. |
| `Ledger.HonestUsageKeepsCaps` | app/billing/pricing.py:28-42 | If every settlement reports use within its call's bounds, the caps are exact. |
| `Ledger.SpendTables.ImportGuest` | app/billing/service.py:54-70 | Inserts exactly the missing associations. |
| `Ledger.SpendTables.Totals` | app/billing/service.py:73-99 | The spent and pending sums of a scope's day. |
| `Ledger.SpendTables.Reserve` | app/billing/service.py:125-163 | Admits exactly when the amount is not negative and every scope has room after import; a refusal changes nothing, imports included. |
| `Ledger.SpendTables.Settle` | app/billing/service.py:166-192 | Writes once; fails on a missing row, a different earlier value or an overrun, which is recorded all the same. |
| `Ledger.SpendTables.Summary` | app/billing/service.py:102-122 | Reports the fuller scope, the address on a tie, and the remainder, never below zero. |
| `SlidingWindow.OverlapTail` | app/ingestion/chunking.py:198-207 | The tail is the shortest suffix of the window's last half that reaches the overlap, or that whole half. |
| `SlidingWindow.CarryOver` | app/ingestion/chunking.py:240-247 | The tail carried into the next window, dropped when it cannot stand beside the incoming unit. |
| `SlidingWindow.Windows` | app/ingestion/chunking.py:210-250 | Terminates, and the windows are the slices of a cutting: each starts where its predecessor's tail starts, grows while the next unit fits and ends only where it does not. |
| `SlidingWindow.CuttingUnique` | app/ingestion/chunking.py:210-250 | There is only one such cutting: the specification determines the windows. |
| `SlidingWindow.WindowsAdvance` | app/ingestion/chunking.py:213-214 | Ends strictly increase, so every window holds a fresh unit, and at most half of a window (rounded up) is repeated in the next. |
| `SlidingWindow.ContainedIff` | app/ingestion/chunking.py:213-214 | A window lies inside the next one exactly when it is a single unit, an overlap is asked for and that unit fits beside the following one. |
| `SlidingWindow.WindowCanRepeat` | app/ingestion/chunking.py:213-214 | Two units whose windows are the first unit alone and then both. |
| `SlidingWindow.FreshUnitsRebuild` | app/ingestion/chunking.py:210-250 | Without the carried tails the windows are the unit list, exactly and in order. |
| `SlidingWindow.WindowsFit` | app/ingestion/chunking.py:211-214 | If no unit exceeds the cap and the target is at most the cap, no window exceeds it. |
| `Sections.FilterIsParentChain` | app/ingestion/chunking.py:126-128 | Filtering the heading stack by level yields the chain of nearest earlier headings of smaller level, whose top is the parent. |
| `Sections.ChainIncreasing` | app/ingestion/chunking.py:126-128 | The stack is strictly increasing in level. |
| `Sections.FeedMeetsSpecification` | app/ingestion/chunking.py:117-147 | The loop over blocks computes the sections the definition by headings and markers asks for, in one pass. |
| `Sections.SectionsConserve` | app/ingestion/chunking.py:111-147 | Sections concatenate back to every block of the document, in order. |
| `Sections.SectionsLabelled` | app/ingestion/chunking.py:96-102 | Each section spans its heading (or the start of the document) up to the next heading; its label, judged at that start on the whole document, is its heading's own marker, else its parent's, else the document's; its path is the breadcrumbs of its ancestors. |
| `Sections.SectionBuilder.AddHeading` | app/ingestion/chunking.py:123-134 | One heading advances the loop state as specified. |
| `Sections.SectionBuilder.AddText` | app/ingestion/chunking.py:135-145 | One text block, with its possible marker, advances the loop state as specified. |
| `Sections.SectionBuilder.AddPage` | app/ingestion/chunking.py:117-145 | A page's blocks are matched against its expected headings in order. |
| `Sections.BuildSections` | app/ingestion/chunking.py:95-147 | The whole pass returns the specified sections of the document. |
| `Breadcrumbs.PageItemsMean` | app/ingestion/chunking.py:118-134 | Every block of a page that is not empty counts, in order, and is a heading exactly if it is the next of the headings expected on the page. |
| `Breadcrumbs.ItemsConcat` | app/ingestion/chunking.py:117-119 | The blocks of a document are those of its pages, one page after another. |
| `Breadcrumbs.BlocksAt` | app/ingestion/chunking.py:133-145 | A block keeps its text and page and counts its own tokens, in order. |
| `Breadcrumbs.ChainIsPath` | app/ingestion/chunking.py:126-130 | The breadcrumbs of a section are exactly the headings that stand above it (everything headed in between is deeper), outermost first, and its own. |
| `Breadcrumbs.DocLabelIs` | app/ingestion/chunking.py:135-143 | The document's label is its last marker before the first heading, or "all" without one. |
| `Breadcrumbs.LabelInherited` | app/ingestion/chunking.py:96-102 | A section has the label of the nearest marked heading among its own and those that stand above it, a marker being the block right after the heading, and the document's label if none is marked. |
| `Chunking.PageSpan` | app/ingestion/chunking.py:193-195 | The least and the greatest page of the blocks, or none. |
| `Chunking.DraftList.FlushBuffer` | app/ingestion/chunking.py:265-283 | The buffered sections become one more piece of the plan, merged into one chunk (what it holds is `ChunkContents.PieceHolds`), and the buffer is empty. |
| `Chunking.DraftList.AddLong` | app/ingestion/chunking.py:286-303 | A section over the target is cut by the window. |
| `Chunking.DraftList.AddShort` | app/ingestion/chunking.py:306-311 | A short section joins the buffer, which is flushed first when the label differs or the target would be exceeded. |
| `Chunking.ChunkDocument` | app/ingestion/chunking.py:253-316 | The chunks are those of a plan: runs of short sections with one label within the target, ended only where the next could not join, and long sections in windows. |
| `Chunking.OneLabelPerChunk` | app/ingestion/chunking.py:304-311 | Every section a chunk draws from has the chunk's access label. |
| `Chunking.PlanUnique` | app/ingestion/chunking.py:285-312 | The sections determine the plan: a run of short sections takes every section it can, and there is only one cutting of a long one. |
| `ChunkContents.BlockTextsInOrder` | app/ingestion/chunking.py:268-269 | The texts of a merged chunk are its blocks' texts, one each, in order. |
| `ChunkContents.JoinSplits` | app/ingestion/chunking.py:269-269 | Joining puts the separator between the parts and nowhere else: one part is itself, and two non-empty lists join with the separator between them. |
| `ChunkContents.TextsInOrder` | app/ingestion/chunking.py:129-129 | Breadcrumbs show the headings' texts, one each, in order. |
| `ChunkContents.ConcatSplits` | app/ingestion/chunking.py:319-327 | Parts laid out one after another keep their order and nothing comes between them. |
| `ChunkContents.PieceHolds` | app/ingestion/chunking.py:265-303 | What every chunk of a plan is: of short sections, all their blocks' texts in document order with a blank line between them, under the first one's breadcrumbs and the label they share; of a long section, one window after another, sentences followed by a space and tables set off by blank lines; each with its own token count and pages. |
| `ChunkContents.ChunksConserve` | app/ingestion/chunking.py:253-316 | Nothing is lost, repeated or reordered: reading the contents of the numbered chunks one after another, without what a chunk repeats of the end of the one before it, gives every printing character of the document's sections (the units of a long one) once and in order, blank chunks dropped or not. |
| `Chunking.IndexesIncrease` | app/ingestion/chunking.py:314-316 | Indexes strictly increase, exactly the blank chunks are missing. |
| `Chunking.SplitTable` | app/ingestion/chunking.py:150-168 | The rows come back exactly and in order, every piece repeats the header and exceeds the cap only if it is one row, and a piece ends only where the next row did not fit. |
| `ChunkContents.TablePieceAt` | app/ingestion/chunking.py:150-168 | Every piece of a split table is its own rows under the header, in order, on the table's page, with its own token count. |
| `Stream.SentinelVerdict` | app/generation/sentinel.py:16-41 | For every cut into deltas: refused exactly when the left-stripped whole starts with the sentinel, otherwise the whole text comes through. |
| `Stream.SplitConserves` | app/generation/quotes.py:54-83 | For every cut into deltas: either all of the text comes out, or the text is what came out, white space, a marker and the section. |
| `Stream.LatencyIsBounded` | app/generation/quotes.py:66-69 | While no marker was taken at most 24 characters are withheld. |
| `Stream.CutMatters` | app/generation/quotes.py:28-30 | Two cuts of the text "quotesx" that are split differently: the anchors see only the pending text. |
| `Marker.LineMatchIff` | app/generation/quotes.py:28-30 | The scan of a line matches exactly the marker lines, read off the text (blanks, decoration, blanks, the word in any case, blanks, perhaps a colon, blanks, emphasis, blanks, end of line), however they can be read, and finds their end. |
| `Marker.SearchIff` | app/generation/quotes.py:28-30 | The search finds exactly the first marker line at the start of the text or after a line feed. |
| `Cuts.SplitFollows` | app/generation/quotes.py:54-83 | In closed form, for every cut: everything comes out unless one of the looks at the text hits, each at what lies between 24 characters before one end of a delta and the next end; the first that hits decides what came out and the section. |
| `Cuts.CutAgreesIff` | app/generation/quotes.py:54-83 | For every cut of every text: section and answer (up to white space at its end) are those of the leftmost marker line of the whole text if and only if no look hits, or the first one that does neither begins in the middle of a line of which more than white space is out, nor ends where the pending text does while the line goes on. Text and positions of the cuts decide this. |
| `Cuts.CleanCutsAgree` | app/generation/quotes.py:54-83 | So two cuts of one text that meet this condition, one of them possibly the uncut text, are split alike. |
| `Cuts.WordlessComesOut` | app/generation/quotes.py:54-83 | For every cut: a text without the marker word comes out whole. |
| `Cuts.LineShownIff` | app/generation/quotes.py:37-37 | Some cut shows part of the leftmost marker line if and only if more than 19 characters (the hold-back without the word, and one) come before its word, whatever comes after it. |
| `Cuts.OutStaysBefore` | app/generation/quotes.py:54-83 | For every cut of a text with a marker line, no more comes out than the text before that line, or up to 19 characters before its word, whichever is longer. |
| `Cuts.LongMarkerSlips` | app/generation/quotes.py:37-37 | A family of texts for it: more than 24 stars before the word are partly shown when the text is cut there, and not at all when it comes in one delta. |
| `Stream.RefusalShowsNothing` | app/generation/service.py:555-581 | Both buffers together show nothing of a refusal, not even before the stream ends. |
| `Stream.AttemptConserves` | app/generation/service.py:563-581 | Both buffers together: an answer is shown whole, up to its quotes section, and the verdict is that of the whole text. |
| `Stream.SentinelBuffer.Feed` | app/generation/sentinel.py:16-32 | One delta through the head buffer. |
| `Stream.SentinelBuffer.Flush` | app/generation/sentinel.py:34-41 | The end of the stream for the head buffer. |
| `Stream.QuoteSplitter.Feed` | app/generation/quotes.py:54-69 | One delta through the tail splitter. |
| `Stream.QuoteSplitter.Flush` | app/generation/quotes.py:71-83 | The end of the stream for the tail splitter. |
| `Stream.QuoteSplitter.FindMarker` | app/generation/quotes.py:28-30 | The leftmost marker line. |
| `Quotes.Normalise` | app/generation/quotes.py:110-129 | The loop yields the normalised text and, per piece of it, the offset it came from. |
| `Quotes.IndexIncreases` | app/generation/quotes.py:110-129 | The offsets strictly increase. |
| `Quotes.Resynchronised` | app/generation/quotes.py:113-126 | Scanning from any printing character agrees with scanning from the start. |
| `Quotes.AlignedIffLengths` | app/generation/quotes.py:127-128 | The map is as long as the normalised text exactly when every printing character folds to one character. |
| `Quotes.SpanReadsBack` | app/generation/quotes.py:176-178 | In an aligned passage, the span behind any stretch of normalised text that starts with a printing character normalises to exactly that stretch. |
| `Quotes.LocateFaithfulIff` | app/generation/quotes.py:164-182 | Every quotation is located faithfully (an exact or normalised hit reads, normalised, exactly as the stripped normalised quotation, and no lookup runs off the map) if and only if every printing character of the passage folds to one character. |
| `Quotes.VerdictIff` | app/generation/quotes.py:164-182 | Which verdict a lookup comes to, by where the quotation occurs: refused exactly if under three characters, the passage is empty, or it is nowhere verbatim and normalises to blanks; exact, at its first place, exactly if it occurs verbatim; normalised (or off the map) exactly if only its normalised form occurs; left to the fuzzy search exactly if neither does. |
| `Quotes.SpellingsAgree` | app/generation/quotes.py:100-126 | Texts that spell a quotation mark, an apostrophe, a dash or a blank differently, repeat blanks or carry emphasis marks normalise alike. |
| `Quotes.PrintedFolds` | app/generation/quotes.py:110-129 | Anything else that prints comes out case folded where it stands, and a run of blanks as one space. |
| `Quotes.RaisesIff` | app/generation/quotes.py:176-178 | Some quotation drives the lookup off the map exactly when the normalised passage, up to its last printing character, is longer than its map. |
| `Quotes.SharpSRaises` | app/generation/quotes.py:127-128 | A passage of one sharp s and a quotation of it for which the lookup runs off the map. |
| `Resolution.EmptySectionResolves` | app/generation/quotes.py:86-95 | Without a section there are no quotations, and resolving never raises. |
| `Resolution.AlignedNeverRaises` | app/generation/quotes.py:270-298 | Over passages that fold character by character no section and no text make resolving raise, whatever the similarity search finds. |
| `Resolution.ResolvingRaisesIff` | app/generation/quotes.py:270-298 | Some section and some text make resolving raise if and only if some numbered passage overruns its map: by itself (its normalised text up to the last printing character is longer than the map), or behind the similarity search for some quotation a line can carry. |
| `Resolution.QuotingAllRaises` | app/generation/quotes.py:270-298 | For a block with any number whose passage overruns its map, a section that quotes the passage on one line, with emphasis marks, makes resolving raise for every text that cites the block. |
| `QuoteLines.QuoteLineIff` | app/generation/quotes.py:31-31 | A line is read as quotation q of block n exactly if it is written as one: blanks, perhaps a bullet, the number in brackets, perhaps a colon, and q, of three characters or more, inside blanks and quotation marks. |
| `QuoteLines.MarksAre` | app/generation/quotes.py:35-35 | The marks a quotation may stand in are the double and single ones in all their spellings, and backquotes. |
| `QuoteLines.LinesMean` | app/generation/quotes.py:86-95 | A line break ends a line and starts the next, and nothing else does. |
| `QuoteLines.QuotesInOrder` | app/generation/quotes.py:86-95 | A section's quotations are those of its lines, in order. |
| `QuoteLines.CitesIff` | app/generation/quotes.py:259-267 | A text cites block n exactly if n stands in brackets somewhere in it. |
| `QuoteLines.NumberIsDecimal` | app/generation/quotes.py:94-94 | A number reads as its decimal numeral says. |
| `QuoteLines.ContentIff` | app/generation/quotes.py:274-274 | Of two blocks with one number the later one counts. |
| `Spans.SortedSorts` | app/generation/quotes.py:241-241 | The spans are ordered like tuples, none lost. |
| `Spans.Merge` | app/generation/quotes.py:239-246 | Merged spans are more than one position apart, cover every span, hold nothing but spans and single positions between two of them, and begin and end where spans do. |
| `Spans.MergeUnique` | app/generation/quotes.py:239-246 | Only one list of spans has those properties. |
| `Spans.MergedOverlaps` | app/generation/quotes.py:290-296 | Every merged span overlaps a located one: the maximum is never over nothing. |
| `Spans.LeastCertain` | app/generation/quotes.py:289-296 | The least certain method among the hits overlapping a span. |
| `Spans.Resolve` | app/generation/quotes.py:283-298 | The quotes of a passage: the merged spans, each as trustworthy as its least certain member. |
| `QueryRun.OrderMeans` | app/generation/service.py:66-113 | What an ordered event list is: meta first and once, sources before any delta, nothing after done or error. |
| `QueryRun.Run.RecordOnce` | app/generation/service.py:323-361 | Only the first call records; later ones tell whether it worked. |
| `QueryRun.Run.PersistenceError` | app/generation/service.py:363-374 | An error exactly when a conversation's record did not succeed: sources changed, or not saved. |
| `QueryRun.Run.RecordIncomplete` | app/generation/service.py:376-397 | Records what has been shown, once, and raises without recording exactly when resolving its quotes raises. |
| `QueryRun.Run.Normalize` | app/generation/service.py:400-450 | Comes to what the path of a staying client says: nothing without a parent, a failure left to the handlers, or a clarification that is introduced, recorded and closes the run; a client that leaves earlier leaves the events so far and no record. |
| `QueryRun.Run.Retrieve` | app/generation/service.py:451-510 | The same for retrieval: an embedding failure is recorded and reported at once, other failures are left to the handlers, and passages that fail the gate end in a recorded refusal after meta. |
| `QueryRun.Run.Prepare` | app/generation/service.py:512-546 | The same for planning: a provider failure while planning and embedding failures of facets are survived, any other failure is left to the handlers, and otherwise the sources are announced, once the context is built. |
| `QueryRun.Run.Converse` | app/generation/service.py:555-581 | The same for one streamed reply: it sends exactly the text both buffers let through, and ends with the reply's own failure if it has one. |
| `QueryRun.Run.Try` | app/generation/service.py:555-643 | The same for an attempt: a provider failure is recorded and reported, a refusal is recorded and closes the run, anything else goes on. |
| `QueryRun.Run.Generate` | app/generation/service.py:555-643 | The same for both attempts: the second is made exactly when the first left nothing but white space, and two such attempts fail. |
| `QueryRun.Run.Answer` | app/generation/service.py:645-686 | The answer is what was shown, finalised, and is recorded before it is announced; if resolving its quotes raises, the failure is left to the handlers. |
| `QueryRun.Run.Execute` | app/generation/service.py:399-718 | The body with its handlers and the last resort leaves exactly the events, the record and the exception of the closed form `Final`. |
| `QueryRun.RunQuery` | app/generation/service.py:278-718 | For every behaviour of providers, storage and client, cancellation at any event included, events, record and exception are a closed form of the world: the path of a client that stays, cut where the client leaves, with the one record of its end. |
| `QueryRun.RunInOrder` | app/generation/service.py:66-113 | In every run the events are in order, and a run that does not raise ends with its one terminal event. |
| `QueryRun.DoneMeansRecorded` | app/generation/service.py:662-686 | In every run a done event follows the one record and agrees with it, and a conversation hears it only if the record was saved. |
| `QueryRun.RefusalShowsBlank` | app/generation/service.py:596-624 | A run recorded as refused has shown nothing but white space. |
| `QueryRun.AnswerIsWholeReply` | app/generation/service.py:653-672 | A recorded answer is one whole reply, up to its quotes section and not a refusal, and exactly that was shown, after nothing but white space. |
| `QueryRun.IncompleteIsShown` | app/generation/service.py:376-397 | An incomplete record holds exactly the text that was shown, white space before it aside. |
| `QueryRun.RecordMissingIff` | app/generation/service.py:376-397 | At most one record, and none if and only if the run breaks off, by a failure in any stage or attempt or because the client leaves, at a moment whose quotes cannot be resolved; that moment is given by the world, and holds all of one reply so far and what the client was shown. |
| `QueryRun.AlignedAlwaysRecords` | app/generation/service.py:376-397 | Every run over passages that fold character by character leaves exactly one record. |
| `QueryRun.LosesRecord` | app/generation/service.py:376-397 | A family of runs: one delta with an answer, a QUOTES line and any section, then the provider breaks off. There is no record if and only if resolving the section against the answer raises; the client has seen the answer then. |
| `QueryRun.LosesRecordWhenLeft` | app/generation/service.py:709-718 | The same when the client leaves right after that delta, whatever would have come. |
| `QueryRun.ContextLosesIff` | app/generation/service.py:376-397 | Over some context blocks some run ends without a record, whatever else differs, if and only if some numbered passage overruns its map, by itself or behind the similarity search. |
| `QueryRun.SharpSLosesRecord` | app/generation/service.py:376-397 | One of them in full: the passage is a sharp s and the delta is "See [1].", a line "QUOTES:" and a line that quotes it in bold. |
| `Outcomes.RunComesTo` | app/generation/service.py:399-718 | What a run of a client that stays comes to, by the world alone: a clarification exactly if the normalizer asks for one, a refusal exactly if the passages fail the gate or the deciding reply is a refusal, an answer exactly if the deciding reply says something and its quotes resolve, and an incomplete record (or none) exactly if something failed before or after the model was asked. |
| `Outcomes.ClarifiedRun` | app/generation/service.py:400-450 | A clarification: meta, sources and done with the question, one record of it, nothing raised. |
| `Outcomes.GatedRun` | app/generation/service.py:474-510 | Passages that fail the gate end in a refusal before the model is asked: meta and done (or the error of a conversation that could not be saved), one refusal recorded. |
| `Outcomes.NormalizerFails` | app/generation/service.py:687-708 | A normalizer that fails: the cause is reported if it is the provider or the budget and raised otherwise, a conversation hears meta first, and an empty incomplete record is left. |
| `Outcomes.SearchFails` | app/generation/service.py:451-466 | The same for a search that fails, an embedding failure being the provider's. |
| `Outcomes.PreparationFails` | app/generation/service.py:512-546 | The first facet or planning failure that is not survived, or the context builder's, ends the run after meta in an incomplete record. |
| `Outcomes.RefusedRun` | app/generation/service.py:596-624 | A refusing reply, the first or the one after a vacant first: a refusal is recorded and announced, whatever blanks were shown. |
| `Outcomes.AnsweredRun` | app/generation/service.py:645-686 | A reply that says something: meta, sources, its text and done with the finalised answer, which is what is recorded. |
| `Outcomes.ReplyFails` | app/generation/service.py:687-718 | A reply that breaks off: what was shown is recorded as incomplete and the cause reported or raised, unless its quotes do not resolve; then the run raises without a record. |
| `Outcomes.AnswerFails` | app/generation/service.py:653-655 | An answer whose quotes do not resolve: the failure is raised, and recorded as incomplete only if the quotes resolve against what was shown. |
| `Outcomes.BothVacant` | app/generation/service.py:625-643 | Two vacant replies are a failure of the provider; the second is asked for exactly after a vacant first. |
| `Outcomes.LeavingRun` | app/generation/service.py:709-718 | A client that leaves after n events has been sent the first n of the staying client's; once the terminal event is out the record is the same, and before it is an incomplete one or none. |
| `TokenBucket.WindowBound` | app/core/rate_limit.py:40-52 | Over any stretch of requests the admitted cost is at most the capacity plus the refill of that time. |
| `TokenBucket.MinuteBound` | app/core/rate_limit.py:3-5 | So at most twice the limit in any minute. |
| `TokenBucket.AdmittedIff` | app/core/rate_limit.py:40-52 | A request is admitted exactly if, counted from every earlier request and from itself, that keeps the admitted cost within the capacity and the refill since: the bucket admits all that the bound allows. |
| `TokenBucket.ExpiryIsInvisible` | app/core/rate_limit.py:46-50 | Whenever the key expires after a minute without use, the decisions are those of a bucket that never expires. |
| `TokenBucket.RetryAfterExact` | app/core/rate_limit.py:90-98 | Undisturbed, a whole number of seconds later the request is admitted exactly when the limit allows its cost at all and the advertised wait has passed. |
| `TokenBucket.TooExpensive` | app/core/rate_limit.py:43-48 | A cost above the limit is never admitted. |
| `TokenBucket.Bucket.Consume` | app/core/rate_limit.py:40-98 | The script and the decision built from it: the stored level, what remains, when to return. |
| `EditDistance.DistanceIsLeast` | eval/ocr/run_ocr_eval.py:189-195 | The recurrence is the least cost of all delete, insert and replace scripts that turn one list into the other. |
| `EditDistance.ZeroIffEqual` | eval/ocr/run_ocr_eval.py:193-193 | The distance is zero exactly between equal lists. |
| `EditDistance.FillRow` | eval/ocr/run_ocr_eval.py:190-193 | One row of the table from the one before, in place. |
| `EditDistance.LeastEdits` | eval/ocr/run_ocr_eval.py:189-194 | Two rows suffice for the least number of edits. |
| `EditDistance.WordErrorRate` | eval/ocr/run_ocr_eval.py:182-195 | The least number of edits per reference word over the normalised, non-empty words; zero without any. |
| `EditDistance.PerfectIffEqual` | eval/ocr/run_ocr_eval.py:195-195 | A rate of zero means equal word lists, unless there was nothing to recognise. |
| `RoundRobin.RoundRobinChunks` | app/retrieval/planning.py:145-162 | The loop returns the first `limit` chunks of all groups read rank by rank, first occurrences only. |
| `RoundRobin.UniqueKeepsFirst` | app/retrieval/planning.py:155-158 | The first chunk of an id is the one kept. |
| `RoundRobin.MergeIsClean` | app/retrieval/planning.py:148-162 | No id twice, nothing from elsewhere, never over the limit. |
| `RoundRobin.MergeIsComplete` | app/retrieval/planning.py:151-162 | Below the limit every id of every group is there. |
| `RoundRobin.MergeIsFair` | app/retrieval/planning.py:151-162 | If r ranks of every group fit the limit, every group's best r are there. |
| `RoundRobin.MergeIsOrdered` | app/retrieval/planning.py:151-162 | Of two chunks kept, the one that comes first was met first, rank before group; and each stands where its id was met first. |
| `Fusion.Collect` | app/retrieval/fusion.py:21-27 | The nested loops collect each id once, in the order met, with its exact summed reciprocal ranks. |
| `Fusion.Fuse` | app/retrieval/fusion.py:16-30 | The best `top_n` of all candidates by exact score, ties in the order met, each the first chunk of its id. |
| `Fusion.RankingUnique` | app/retrieval/fusion.py:29-29 | The ranking is determined by the scores and the order met. |
| `Fusion.BestAreBest` | app/retrieval/fusion.py:29-30 | Nothing left out scores higher than anything kept. |
| `Fusion.AheadEverywhere` | app/retrieval/fusion.py:3-7 | A chunk ahead of another in every list that has the other scores at least as high, and strictly higher if any list has it. |
| `Fusion.TwoListsBeatOne` | app/retrieval/fusion.py:3-7 | A chunk among the best k + 1 of two lists outscores everything that only one list found. |
| `Fusion.ListAdds` | app/retrieval/fusion.py:7-26 | A list adds the reciprocal of k plus the rank, counted from one, to the score of the id it has there, and nothing to the score of one it does not have. |
| `Rules.CompileRule` | app/extraction/rules.py:58-79 | The walk over all nodes accepts exactly the short, parsed, wholly whitelisted trees. |
| `Rules.AcceptedRulesRun` | app/extraction/rules.py:82-138 | An accepted rule never reaches the errors for unsupported syntax or comparisons, whatever the fields hold. |
| `Rules.AcceptedIff` | app/extraction/rules.py:65-78 | A tree is accepted exactly if no node of it offends: unlisted syntax or operators, an unsupported constant, an unknown name, a call of anything but a function by name, or with keywords. |
| `Rules.ConjunctionIff` | app/extraction/rules.py:108-109 | A conjunction is true exactly if every part is, and else what its first part that is not true makes it: false, unknown or an error. |
| `Rules.DisjunctionIff` | app/extraction/rules.py:110-111 | A disjunction is false exactly if every part is, and else what its first part that is not false makes it. |
| `Rules.ChainIff` | app/extraction/rules.py:126-133 | A chained comparison is true exactly if its operands are known and every one compares with the next. |
| `Rules.OperatorsMean` | app/extraction/rules.py:112-125 | Two texts are joined and compared as texts, anything else as numbers, and an operand that reads as no number leaves the rule undecided. |
| `Rules.NodesMean` | app/extraction/rules.py:100-117 | A negation is the opposite of its operand, an operator needs both operands, the left one first, and a list is the list of its items. |
| `Rules.VerdictIsFinal` | app/extraction/rules.py:82-138 | A verdict other than unknown is unchanged by filling in missing fields, despite short-circuiting and chained comparisons. |

## Left out

- Routing, authentication, event encoding, logging, health probes and the user interface: plumbing.
- SQL, vector and full-text search, reranking: searches are arbitrary ranked lists.
- Model, embedding, mail, identity, object-storage and queue clients: their outcomes are parameters or steps; a task delivery is a claim that may happen at any time, any number of times.
- Regular expressions other than the quotes marker, quote lines and citations, tokenisers and `_sentence_units`: parameters (token counts, access markers, sentence units) of the chunker.
- The similarity scores behind the fuzzy branch of `_locate` (a parameter that names a span) and the lexical fallback (`fallback_spans`), which raises nothing.
- Exceptions while an answer is finalised and its citations are built (`finalize_answer`, a parameter that always returns), and a provider stream that raises while it is closed for a leaving client.
- Digits outside ASCII in `[n]`, and numbers of more than 4300 digits, which Python refuses to convert.
- Unicode case folding: a parameter that keeps at least one character and makes no white space.
- Digests, fresh identifiers and tokens are assumed not to collide; rows carry identifiers the caller draws.
- Branches that fail open when Redis is down, and clocks that run backwards.
- Floating-point rounding: fusion scores, bucket levels and error rates are exact real numbers; Lua's decimal rendering of the bucket level is not modelled.
- Embedding vectors: folded into the drafts a run stores.
- The attempts and lease of extractions and source syncs: they repeat the ingestion protocol with weaker guarantees.
- Access label of facts chunks, suggested questions, usage aggregates, sessions, cookies, pagination and quota arithmetic: easy members.
- Derived searchable copies: their steps are in the file model, but the invariant covers originals; the worker stores derived copies without the lock.
- Documents left in PROCESSING without a token by older releases: runs start from an empty database (or any state that satisfies the invariant).
- Local state of suspended requests and workers is what the state machines keep in their phases and runs; memory they share otherwise is not part of this model.
- `fit_safe_context` and the prompt builders: budgets over token counts, easy members.
- Ledger.DailyCaps: bounds addresses and payers; account scopes can exceed the limit and have the weaker bound of `Ledger.AccountCap`.
- Files.CommittedOriginalsSurvive: excludes runs in which a source sync commits a row whose file is in danger, because those can dangle (`Files.SyncCommitSoundIff`).
- QueryRun.RecordMissingIff: promises one record except where resolving quotes raises, as the code does.
- Rules.AcceptedRulesRun: integers too large for a float, whose conversion raises, are not modelled; a number is its float.
