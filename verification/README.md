# cosift: verified models

Dafny models of the stateful and algorithmic parts of cosift, a self-hosted search and
answer service, and proofs of what those parts promise. One module stands for one component:

| module | component |
|---|---|
| `AnswerCache` | the `/answer` cache: a TTL store fused with singleflight, under any interleaving |
| `Counters`, `CounterFlush` | distinct-reader counts over a lazily rolled 14-day window, and their write-behind flush |
| `RateLimiter` | the token-bucket limiter and its idle sweeper |
| `Receipt` | the durable receipt journal of community contributions, across failures and crashes |
| `Research`, `Reorder` | the multi-pass research loop, its concurrent merge and its reorderings |
| `Mmr`, `Fusion` | maximal marginal relevance; reciprocal rank fusion and scatter-gather |
| `UrlKey`, `DupCensus` | the canonical URL key and the two-pass duplicate census |
| `Keys` | the binary key codec of the article store and its range bounds |
| `SuffixMatcher` | the bucketed domain-suffix matcher |
| `Utf8` | UTF-8-safe cutting and the evidence budget of a synthesis prompt |
| `Bytes`, `Collections`, `Lex`, `Text` | bytes, small facts about sets and sequences, lexicographic order, folding and sorting of strings |

How the models are built:

- A component that several goroutines share is a state machine whose steps are its locked
  sections and its single unlocked accesses. A run is any sequence of enabled steps, so a
  theorem about all runs is a theorem about all interleavings. `AnswerCache`, `CounterFlush`
  and `Receipt` are of this kind; the environment (other callers, `fn`, the disk, the
  crawler, a crash) is a choice of step.
- Objects that the program updates in place are classes, and their methods are proved
  against the step functions. Loops are loops. What the program leaves to chance, such as
  map order, unstable sorting, goroutine order or eviction, is a nondeterministic choice,
  so a proof holds for every choice.
- Clocks, peers, models, stores and the network are parameters. Bytes are characters with a
  code below 256. Scores, tokens and seconds are real numbers. Days are day numbers.

Where the code and its comments differ:

- The package comment of the answer cache says that of equal requests in one TTL window the
  first computes and the rest hit (`internal/answercache/cache.go:6-9`). A caller that missed
  before the first result was stored does not look again, so `fn` can run twice within the
  TTL. `AnswerCache.SecondRunWithinTtl` builds such a run. `AnswerCache.ComputesIff` says
  exactly when a lookup runs `fn`: its read gave nothing fresh and nobody was computing the key
  when it came to join. `AnswerCache.LaterLookupsHit` gives what is left of the promise: whoever
  reads after the first result was stored, and checks the clock within the TTL, hits, unless a
  `Set` wrote or evicted the entry in between.
- A URL above another in every list that holds the other need not win when a list repeats the
  other; `Fusion.OnceIsTheExactLimit` shows that the absence of repeats is the exact bound.
- `normalizeURLKey` drops the brackets of an IPv6 host, so that a port can read as one more
  group of the address (`UrlKey.Ipv6PortsCollide`); `UrlKey.KeyEqualityIff` says exactly which
  URLs then share a key.

## Model

| member | source | states |
|---|---|---|
| `AnswerCache.RunsKeepInv` | internal/answercache/cache.go:62-132 | in every interleaving the call table, the leaders, the joiners, the store and the counters stay consistent |
| `AnswerCache.AtMostOneLeader` | internal/answercache/cache.go:99-126 | two lookups of one key are never both between insert and delete, and while one is, the key is in the table |
| `AnswerCache.EveryTableEntryHasALeader` | internal/answercache/cache.go:109-126 | a key in the table always has a leader between insert and delete |
| `AnswerCache.JoinersGetTheLeadersResult` | internal/answercache/cache.go:109-122 | a joiner returns exactly the value and error its leader's `fn` returned, for the same key |
| `AnswerCache.WaitersHaveALiveLeader` | internal/answercache/cache.go:109-122 | nobody waits on an open channel whose leader is gone |
| `AnswerCache.StoreStaysWithinCap` | internal/answercache/cache.go:84-97 | with a positive cap the store never exceeds it |
| `AnswerCache.HitsAreFresh` | internal/answercache/cache.go:61-79 | a hit returns a value stored under the same key, before the hit and at most the TTL before it |
| `AnswerCache.AnswersBelongToTheirKey` | internal/answercache/cache.go:104-132 | every error-free answer of `Do` came from an `fn` run or a `Set` for that same key |
| `AnswerCache.ErrorsAreNeverStored` | internal/answercache/cache.go:128-130 | whatever direct `Set`s occur, all that leaders ever store is the non-empty, error-free result of their own `fn` under their own key |
| `AnswerCache.FinishStoresIff` | internal/answercache/cache.go:128-130 | a leader that finishes stores its result under its key, for the TTL from then on, if and only if caching is on and the result has no error and is not empty |
| `AnswerCache.StoreChangesByOne` | internal/answercache/cache.go:84-97 | no step drops more than one entry, and that only at a positive cap; an entry that appears or changes is the value the step wrote, with the expiry of that moment |
| `AnswerCache.FnRunsCounted` | internal/answercache/cache.go:115-122 | the leaders whose `fn` is over number exactly the `fn` runs of the history |
| `AnswerCache.CountersAddUp` | internal/answercache/cache.go:77-113 | if all lookups go through `Do` and are done, they number hits + shared joins + `fn` runs |
| `AnswerCache.LookupsTakeBoundedSteps` | internal/answercache/cache.go:104-132 | no lookup takes more than eight steps of its own, whatever the others do |
| `AnswerCache.NeverStuck` | internal/answercache/cache.go:104-132 | while some lookup is unfinished, some lookup can move |
| `AnswerCache.SecondRunWithinTtl` | internal/answercache/cache.go:104-132 | a run in which one key is computed twice at the same instant, with caching on |
| `AnswerCache.HitsIffStoredAndFresh` | internal/answercache/cache.go:66-78 | a lookup, `Get` or `Do`, hits if and only if the entry it read is unexpired when it checks the clock |
| `AnswerCache.ComputesIff` | internal/answercache/cache.go:104-122 | a whole `Do` runs `fn`, and then once, if and only if its read gave nothing fresh (or caching is off) and its key is not in the call table when it comes to join |
| `AnswerCache.EntryStays` | internal/answercache/cache.go:84-97 | an entry stays in the store until some `Set` writes or evicts it |
| `AnswerCache.DisturbsIff` | internal/answercache/cache.go:84-97 | the steps that leave an entry unprotected are those that write it or evict it, and no others |
| `AnswerCache.LaterLookupsHit` | internal/answercache/cache.go:5-9 | after a leader finished, caching on, with a result that has no error and is not empty, every `Do` of the key that reads later and checks within the TTL gets that result and computes nothing, unless a `Set` wrote or evicted the entry before |
| `AnswerCache.Cache.constructor` | internal/answercache/cache.go:52-59 | a new cache is empty |
| `AnswerCache.Cache.Get` | internal/answercache/cache.go:62-79 | returns the stored value exactly when caching is on and it is fresh; counts one hit or one miss |
| `AnswerCache.Cache.Set` | internal/answercache/cache.go:84-97 | stores under the TTL, evicting one entry at the cap and nothing otherwise; never grows past the cap |
| `AnswerCache.PutMeans` | internal/answercache/cache.go:89-96 | what such a store holds: the new entry, every other one below the cap, and all but one of the old at it |
| `AnswerCache.Cache.Enter` | internal/answercache/cache.go:108-117 | leads with a fresh open call exactly when none is in flight, else returns the one there |
| `AnswerCache.Cache.Do` | internal/answercache/cache.go:104-132 | a caller that need not wait hits, takes the closed call still in the table, or runs `fn`, whose result it stores exactly when caching is on and the result has no error and is not empty; it counts one hit or one miss and any join, and leaves the table as it was |
| `AnswerCache.LoneDo` | internal/answercache/cache.go:104-132 | a `Do` of the interleaved protocol that nobody disturbs ends with the store, counters, table and answer that `Cache.Do` promises |
| `AnswerCache.LoneDoRuns` | internal/answercache/cache.go:104-132 | that end is reached by steps of the lookup alone |
| `AnswerCache.LoneGet` | internal/answercache/cache.go:62-79 | the protocol's read and clock check, undisturbed, count and answer as `Cache.Get` does |
| `AnswerCache.SetIsAStep` | internal/answercache/cache.go:84-97 | `Cache.Set` changes the store as the protocol's step does, whichever entry goes |
| `AnswerCache.EnterIsAStep` | internal/answercache/cache.go:108-117 | `Cache.Enter` joins or leads as the protocol's step does |
| `Counters.RolledRefines` | internal/articles/counters.go:46-70 | a roll at any time changes nothing that the log of readers says |
| `Counters.AddedRefines` | internal/articles/counters.go:72-85 | adding a reader counts it once a day, as the log does |
| `Counters.AddMarksNewReaders` | internal/articles/counters.go:81-84 | an add marks its id exactly when the reader is new today |
| `Counters.DroppedRefines` | internal/articles/counters.go:119-125 | dropping an article starts its log again |
| `Counters.LoadedRefines` | internal/articles/counters.go:34-44 | loading starts every log again from the loaded counts |
| `Counters.RunRefines` | internal/articles/counters.go:34-125 | every run under a forward clock refines the plain log |
| `Counters.RollForgetsOldDays` | internal/articles/counters.go:46-70 | a roll to another day keeps the days from thirteen before it on, with their counts, and forgets every older one |
| `Counters.RollMarksWhatItChanges` | internal/articles/counters.go:52-69 | it marks the ids with readers on the finished day and those that lose a day, and no others |
| `Counters.OldDaysAreFreshlyLoaded` | internal/articles/counters.go:34-70 | in every run a day more than thirteen before the current one is shown only if a load on this same day brought it in |
| `Counters.WindowMatchesLog` | internal/articles/counters.go:87-104 | each day of the 14-day window shows the loaded count plus the distinct readers logged that day, wherever rolls fell |
| `Counters.WeekMatchesLog` | internal/articles/counters.go:106-117 | what `readers7d` returns is the log over the last seven days, plus whatever counts a load brought in for days after today; pruning never touches it |
| `Counters.RecentDaysMatchLog` | internal/articles/counters.go:87-117 | however long ago the last roll was, any stretch of days from six before today on adds up to the log |
| `Counters.Counters.constructor` | internal/articles/counters.go:28-30 | new counters are empty |
| `Counters.Counters.Load` | internal/articles/counters.go:34-44 | leaves exactly the loaded state |
| `Counters.Counters.RollLocked` | internal/articles/counters.go:47-70 | folds, clears and prunes as one roll does; after a roll to another day no day before the last fourteen is left |
| `Counters.Counters.Prune` | internal/articles/counters.go:61-69 | deletes the days before the cutoff and no others, marking exactly the ids that lost one |
| `Counters.Counters.Add` | internal/articles/counters.go:72-85 | rolls, then adds the reader, marking the id only for a new reader |
| `Counters.Counters.DaysOf` | internal/articles/counters.go:88-104 | returns the per-day view after a roll, which after a change of day shows nothing before the last fourteen days |
| `Counters.Counters.Readers7d` | internal/articles/counters.go:107-117 | rolls, and returns the sum of all counts from six days before today on, in any map order |
| `Counters.Counters.DropId` | internal/articles/counters.go:119-125 | forgets the id's counts, readers and mark |
| `CounterFlush.RollKeepsView` | internal/articles/counters.go:47-70 | folding a finished day leaves the view of every day in the window; an unmarked id's whole view is untouched |
| `CounterFlush.StepKeepsId` | internal/articles/counters.go:72-170 | every step of readers, flush, delete and restart keeps an id accounted for |
| `CounterFlush.RunsKeepIds` | internal/articles/counters.go:72-170 | the same over every interleaving |
| `CounterFlush.CleanMeansStored` | internal/articles/counters.go:127-170 | a live id neither dirty nor in an unfinished write has on disk exactly the counts memory shows, if and only if no delete batch of it landed in spite of an error, or it has no counts |
| `CounterFlush.UnmarkedMeansStored` | internal/articles/counters.go:127-170 | whenever nobody holds the write lock, a live unmarked id whose delete has not torn it has on disk what memory shows |
| `CounterFlush.CommitStoresTheSnapshot` | internal/articles/counters.go:127-170 | a commit that returns stores, for each id found live, exactly the view at the snapshot, whatever readers did since, and leaves the counts of all others on disk alone |
| `CounterFlush.FailedCommitStoresAllOrNothing` | internal/articles/counters.go:161-168 | a failed commit has stored what the commit would have, or nothing |
| `CounterFlush.FlushStartsIff` | internal/articles/counters.go:128-144 | a flush with nothing marked ends at once; any other goes on to check all that was marked |
| `CounterFlush.AnythingCanInterrupt` | internal/articles/counters.go:72-170 | after any run a change of day, a reader or a crash may come next, in the middle of a write too |
| `CounterFlush.TornDeleteLosesCounts` | internal/articles/put.go:580-584 | a run in which a delete lands in spite of an error and leaves a live clean id with a reader in memory and neither count nor record on disk |
| `CounterFlush.FailureWaits` | internal/articles/counters.go:161-168 | a failed commit holds its ids until it has marked them again, whatever readers do meanwhile |
| `CounterFlush.FailedCommitLosesNothing` | internal/articles/counters.go:161-168 | every id of a failed commit is dirty again once the write lock is free |
| `CounterFlush.RestartKeepsCleanCounts` | internal/articles/store.go:357-361 | a crash and reload costs a clean live id nothing when its record is on disk and no delete tore it, and all its counts otherwise |
| `CounterFlush.DeletedMeansGone` | internal/articles/put.go:577-588 | unless its delete landed in spite of an error, a record not on disk has no counts on disk, and in memory none but of an id that is dirty or being written |
| `CounterFlush.FlushDropsTheDead` | internal/articles/counters.go:146-155 | a flush drops the counts of an id without a live record and never writes them |
| `CounterFlush.NeverTornIsWhole` | internal/articles/put.go:577-588 | without such a delete, counts on disk always have their record, and every record listed is on disk or being deleted |
| `RateLimiter.SweepingIsInvisible` | cmd/cosift/serve_setup.go:1559-1613 | any sweeps at least as patient as the refill time leave every decision as without a sweeper |
| `RateLimiter.IdleTtlIsPatient` | cmd/cosift/serve_setup.go:1615-1625 | `idleTTL` is at least the refill time |
| `RateLimiter.IdleTtlIsLeast` | cmd/cosift/serve_setup.go:1615-1625 | `idleTTL` is the least time that is at least a minute and fills an empty bucket; a minute without a rate |
| `RateLimiter.ImpatientSweepsShow` | cmd/cosift/serve_setup.go:1594-1613 | with any burst of at least one, a shorter idle time changes a decision of a concrete trace |
| `RateLimiter.SweepsInvisibleIff` | cmd/cosift/serve_setup.go:1594-1613 | sweeps that wait at least `idle` are invisible in every ordered trace if and only if an empty bucket refills in that time or the burst is below one token |
| `RateLimiter.ProbePasses` | cmd/cosift/serve_setup.go:1566-1581 | a whole burst and one request at the next token all pass exactly when the bucket was full, and leave it empty |
| `RateLimiter.VolleyPasses` | cmd/cosift/serve_setup.go:1566-1581 | simultaneous requests all pass exactly when the bucket holds a token for each |
| `RateLimiter.WindowBound` | cmd/cosift/serve_setup.go:1559-1613 | one key is admitted at most burst + rpm·(t1−t0)/60 times in any window, sweeps included |
| `RateLimiter.AdmittedIsSize` | cmd/cosift/serve_setup.go:1566-1582 | what that bound counts: the decisions for the key that passed inside the window |
| `RateLimiter.TokensStayInRange` | cmd/cosift/serve_setup.go:1566-1581 | tokens stay between zero and the burst |
| `RateLimiter.KeysAreIndependent` | cmd/cosift/serve_setup.go:1566-1582 | decisions for a key depend on its own requests and sweeps only |
| `RateLimiter.PoliteClientsAreNeverRefused` | cmd/cosift/serve_setup.go:1559-1613 | with burst at least one, requests spaced 60/rpm seconds apart always pass, whatever other clients do and whenever patient sweeps run |
| `RateLimiter.RateLimiter.AllowKey` | cmd/cosift/serve_setup.go:1559-1582 | whitelisted attested callers pass untouched; all others take exactly one protocol step and its decision |
| `RateLimiter.RateLimiter.SweepIdle` | cmd/cosift/serve_setup.go:1596-1613 | deletes exactly the idle buckets, in any map order, and returns their number |
| `RateLimiter.PassIsSweeps` | cmd/cosift/serve_setup.go:1601-1611 | a whole pass is a sequence of single-bucket sweeps |
| `Receipt.RunsKeepInv` | cmd/cosift/community_receipt.go:30-155 | every attempt, failure and crash keeps journal, attempt and replies consistent |
| `Receipt.JournalOnlyGrows` | cmd/cosift/community_receipt.go:45-137 | payload, non-empty approval, eligibility, decision and receipt never change once durably written |
| `Receipt.OnePayloadOneApproval` | cmd/cosift/community_receipt.go:61-92 | all receipts ever returned for an id answer one payload, one approval and one content |
| `Receipt.NovelIsEarned` | cmd/cosift/community_receipt.go:118-155 | a receipt returned as novel was eligible before indexing, not contradicted by the journaled decision, and returned over a complete index |
| `Receipt.RepliesRepeatTheVerdict` | cmd/cosift/community_receipt.go:140-155 | a replay never upgrades a verdict; with a decision and a complete index every answer is the stored receipt, marked complete |
| `Receipt.VerdictIsExact` | cmd/cosift/community_receipt.go:126-130 | with a journaled decision an answer over a complete index is novel if and only if the sealed receipt was indexed, eligible, ruled novel and sealed over a complete index: a deserving contribution is never denied |
| `Receipt.ReplayAnswers` | cmd/cosift/community_receipt.go:140-177 | in every run a replay answers with the stored receipt; without a journaled decision and over a complete index a novel one stays novel if and only if its document is found, its hash decodes, no other live document has the content and no uncomparable variant holds it, and there is no answer when a lookup fails |
| `Receipt.FirstAnswer` | cmd/cosift/community_receipt.go:122-137 | the first answer, which the journal then holds, is novel if and only if the contribution was indexed and eligible, the index is complete, and the journaled decision, or without one the crawler, called it novel |
| `Receipt.ApprovalsAreHashes` | cmd/cosift/community_receipt.go:31-33 | an attempt gets past the first check if and only if its approval is 64 lower-case hex digits |
| `Receipt.FirstAttemptCrawls` | cmd/cosift/community_receipt.go:93-118 | a first attempt reaches the crawler with its intent durable, eligible exactly if the URL is free |
| `Receipt.CrawlIsSealed` | cmd/cosift/community_receipt.go:110-137 | from the crawler on, an attempt that nothing disturbs journals the decision before the document, seals the receipt and returns it; a decision journaled before stands, whatever is reported now |
| `Receipt.AttemptResumes` | cmd/cosift/community_receipt.go:55-118 | an attempt crashed or given up before its receipt was durable is taken up by the next one with the record as it stood |
| `Receipt.RetryIsAnswered` | cmd/cosift/community_receipt.go:90-92 | whatever was going on, a crash and a retry of a submission that has a receipt is answered from the journal |
| `Receipt.LegacyIsUpgraded` | cmd/cosift/community_receipt.go:64-92 | a receipt without an approval whose content is the approved one gets the approval durably and is answered |
| `Receipt.LegacyIntentResumes` | cmd/cosift/community_receipt.go:64-89 | an intent without an approval gets this submission's approval durably and goes on to the crawler |
| `Receipt.ConflictsChangeNothing` | cmd/cosift/community_receipt.go:61-89 | another payload, another approval, or for a receipt without one other content, ends the attempt and changes nothing |
| `Receipt.FailedWrites` | cmd/cosift/community_receipt.go:81-137 | a write that fails ends the attempt without an answer, and the record is on disk exactly if it landed all the same |
| `Receipt.IntentPrecedesIndexing` | cmd/cosift/community_receipt.go:93-118 | the intent is durable before any attempt reaches the crawler and whenever one is there |
| `Receipt.EligibleMeansVacantBeforeIndexing` | cmd/cosift/community_receipt.go:98-102 | eligibility is the vacancy of the URL at a moment before anything was indexed for the id |
| `Receipt.VerdictPrecedesWrite` | cmd/cosift/community_receipt.go:26-29 | whatever failed or crashed before, when a document is written the verdict is on disk, it is the one the attempt goes by, and it stands from then on |
| `Receipt.Journal.FetchCommunityReceipt` | cmd/cosift/community_receipt.go:30-138 | one attempt, against any environment, is a run of the protocol and returns exactly its reply; a malformed approval, another payload or another approval gets nothing and changes nothing; a first attempt that nothing disturbs and a retry get the receipt they deserve |
| `Receipt.Journal.Crawl` | cmd/cosift/community_receipt.go:110-121 | the recorder's calls, writes and failures are protocol steps; when no write fails, the decision kept is the one journaled before, or else the first reported |
| `Receipt.Journal.Seal` | cmd/cosift/community_receipt.go:122-137 | the index check, the verdict and the sealing are protocol steps; when nothing fails the receipt returned is novel exactly when indexed, eligible, called novel and complete |
| `Receipt.Journal.WriteSealed` | cmd/cosift/community_receipt.go:133-137 | a receipt is returned only when it is durable, and then the disk holds exactly it |
| `Receipt.Journal.ReplayReceipt` | cmd/cosift/community_receipt.go:141-155 | a replay answers from the journal, changing nothing, as `ReplayAnswers` says for every outcome of its lookups |
| `Research.ResearchMaxPasses` | cmd/cosift/serve_answer.go:930-945 | what was asked for from one to ten, ten for more, and three for anything missing, unreadable or below one |
| `Research.MaxPasses` | cmd/cosift/serve_answer.go:1388-1394 | a site-restricted request gets exactly one pass, any other what it asked for within the limits |
| `Research.Merge` | cmd/cosift/serve_answer.go:1439-1470 | in any goroutine order each unseen URL offered ends with one of its best hits, and nothing else is kept |
| `Research.OfferedMeans` | cmd/cosift/serve_answer.go:1446-1467 | a hit is offered to the merge if and only if some sub-query's retriever answered with it |
| `Research.MergeMeans` | cmd/cosift/serve_answer.go:1457-1466 | a merge holds exactly the unseen URLs offered, each with the greatest score it was offered at |
| `Research.MergesAgree` | cmd/cosift/serve_answer.go:1457-1466 | two merges of the same answers hold the same URLs with the same scores |
| `Research.TopHits` | cmd/cosift/serve_answer.go:1472-1484 | the best hits up to the cap, best first, however ties fall; nothing cut beats anything kept |
| `Research.PoolSize` | cmd/cosift/serve_answer.go:1479-1484 | of the merged URLs as many go on as were asked for, or with a reranker as many as it may see if that is more; all, if they are fewer |
| `Research.KeptIsUsablePart` | cmd/cosift/serve_answer.go:1486-1511 | materialising keeps the order and drops exactly the hits whose document is missing or filtered out |
| `Research.Decay` | cmd/cosift/serve_answer.go:1514-1523 | scaled scores, descending, equal ones in their old order |
| `Reorder.Rerank` | cmd/cosift/serve_answer.go:1529-1544 | for any reply, garbage included: a permutation ordered by first mention, unmentioned candidates last in their old order |
| `Reorder.MentionedGoFirst` | cmd/cosift/serve_answer.go:1532-1543 | who is mentioned stands before who is mentioned later or never; who is never mentioned keeps the old order |
| `Reorder.RerankOrderIsUnique` | cmd/cosift/serve_answer.go:1529-1544 | that description determines the order |
| `Reorder.FullOrderIsObeyed` | cmd/cosift/serve_answer.go:1532-1537 | a reranker that answers with a full permutation is obeyed exactly |
| `Reorder.StableByScore` | cmd/cosift/serve_answer.go:1521 | a stable descending order of the scores |
| `Research.Pass` | cmd/cosift/serve_answer.go:1439-1564 | one pass is merge, cut, materialise, decay, rerank, diversify and cut again, in that order, and reports how many URLs it merged |
| `Research.StagesOnlyPermute` | cmd/cosift/serve_answer.go:1514-1561 | whatever the reranker and embedder answer, candidates are only permuted |
| `Research.FailuresKeepTheOrder` | cmd/cosift/serve_answer.go:1525-1561 | a reranker or embedder that fails, or answers with nothing, leaves the order as it was |
| `Research.RerankerIsObeyed` | cmd/cosift/serve_answer.go:1525-1564 | a reranker alone that answers with a full order decides which documents the pass takes, in that order |
| `Research.DiversifierIsObeyed` | cmd/cosift/serve_answer.go:1545-1564 | diversification alone takes the documents in a greedy order of their own vectors against the query's |
| `Research.DecayDecides` | cmd/cosift/serve_answer.go:1514-1564 | time decay alone takes the documents by score times multiplier, equal ones in the order found |
| `Research.PassAddsNewDocuments` | cmd/cosift/serve_answer.go:1439-1569 | a pass adds what it found, or k of it, all different, each retrieved in it, unseen before, stored and allowed |
| `Research.PlainPassTakesTheBest` | cmd/cosift/serve_answer.go:1439-1564 | with no reordering asked for, nothing usable left out scores above anything taken |
| `Research.StreamResearch` | cmd/cosift/serve_answer.go:1317-1680 | every run is a chain of passes driven by the plan and the self-evaluations, stops for exactly the reason given, and costs exactly the chat calls counted |
| `Research.StopIsDetermined` | cmd/cosift/serve_answer.go:1571-1680 | the reason to stop is determined; a run asked to go on before its last pass stops only when the next pass finds nothing new |
| `Research.DeliveredIsLastAnswer` | cmd/cosift/serve_answer.go:1620-1640 | what the client ends with is the last answer that was whole, and nothing only if none was |
| `Research.CitationsStayPut` | cmd/cosift/serve_answer.go:1584-1594 | source [i] names the same document in all later passes, and each later list is longer |
| `Research.SourcesCiteThePool` | cmd/cosift/serve_answer.go:1584-1594 | each list of sources is the whole pool, numbered from one in the order promoted |
| `Research.PoolIsDistinctAndBounded` | cmd/cosift/serve_answer.go:1562-1569 | pool URLs are pairwise distinct and number at most k per pass so far |
| `Research.Promote` | cmd/cosift/serve_answer.go:1565-1569 | the seen set equals the pool's URLs at every pass boundary |
| `Research.EverySourceWasEarned` | cmd/cosift/serve_answer.go:1457-1569 | every pooled document was retrieved, unseen and let through in some pass so far |
| `Research.PromptsFitTheBudget` | cmd/cosift/serve_answer.go:1589-1594 | in every pass the evidence totals at most 30,000 bytes, 10,000 a source, and stays valid UTF-8 |
| `Research.ShortTextsAreQuotedWhole` | cmd/cosift/serve_answer.go:1506-1592 | a source of at most 10,000 bytes whose share of 30,000 suffices is in the prompt word for word |
| `Research.TotalsCountNewUrls` | cmd/cosift/serve_answer.go:1468-1599 | the candidate total grows in each pass by the number of different unseen URLs it was offered |
| `Research.ChatCallsAreBounded` | cmd/cosift/serve_answer.go:1317-1680 | plan, synthesis and self-evaluation calls are two a pass, one more when the run stops after judging, and so at most twice the pass limit and at most twenty |
| `Research.QueriesComeFromTheModel` | cmd/cosift/serve_answer.go:1325-1680 | the first pass runs the first five queries of the plan (three for a site), fewer only if it has fewer, and the question itself when the planner gave none; later passes run the first three that the self-evaluation asked for |
| `Mmr.MmrOrder` | cmd/cosift/serve_search.go:1685-1728 | a full greedy order: every pick is the first best of what is left |
| `Mmr.PicksScoreBest` | cmd/cosift/serve_search.go:1698-1726 | each pick is the first of those with the greatest lambda times relevance less (1 - lambda) times closeness to what was picked before |
| `Mmr.MaxSimIsMax` | cmd/cosift/serve_search.go:1705-1714 | the penalty is the greatest similarity to any earlier pick, or zero |
| `Mmr.DotIsSumOfProducts` | cmd/cosift/serve_search.go:1685-1714 | similarity is the sum of the products place by place, and zero for vectors of different lengths |
| `Mmr.GreedyIsPermutation` | cmd/cosift/serve_search.go:1683-1728 | never drops or repeats a candidate |
| `Mmr.GreedyIsUnique` | cmd/cosift/serve_search.go:1698-1726 | the greedy rule determines the order |
| `Mmr.WinScoresFall` | cmd/cosift/serve_search.go:1698-1726 | winning scores never rise along the order |
| `Mmr.PureRelevanceIsStableSort` | cmd/cosift/serve_search.go:1680-1728 | at lambda one it is the stable descending sort by relevance |
| `Mmr.MmrSelect` | cmd/cosift/serve_search.go:1732-1742 | the wrapper returns the same hits, in greedy order or untouched when it does not apply |
| `Fusion.RrfFuse` | cmd/cosift/serve_search.go:1454-1481 | each URL of the union once, with the sum of its weights and its first title, best first |
| `Fusion.TitleIsFirst` | cmd/cosift/serve_search.go:1461-1469 | the title shown is that of the URL's first place in the lists |
| `Fusion.ListScoreOnce` | cmd/cosift/serve_search.go:1461-1469 | a list that holds a URL once, at rank j, gives it 1/(61 + j) |
| `Fusion.SortByScore` | cmd/cosift/serve_search.go:1470-1479 | the map's values in some descending order, ties any way, each once |
| `Fusion.ScoresIgnoreListOrder` | cmd/cosift/serve_search.go:1461-1469 | scores do not change when the lists are permuted |
| `Fusion.FusionsAgree` | cmd/cosift/serve_search.go:1454-1481 | any two fusions of permuted lists show the same URLs and the same score at every rank |
| `Fusion.ScoreIsConserved` | cmd/cosift/serve_search.go:1461-1480 | total score out equals the weights of all positions in |
| `Fusion.AboveEverywhereScoresMore` | cmd/cosift/serve_search.go:1449-1453 | a URL above another in every list holding the other scores strictly higher, if no list repeats the other |
| `Fusion.RepeatsCanOvertake` | cmd/cosift/serve_search.go:1462-1464 | one repeat is enough to break that |
| `Fusion.OnceIsTheExactLimit` | cmd/cosift/serve_search.go:1454-1481 | standing above always wins if and only if lists may hold a URL at most once |
| `Fusion.Gather` | cmd/cosift/serve_search.go:121-161 | fuses exactly the lists of the peers that answered, shows the first k or all, and counts failures and candidates |
| `Fusion.GatherAccounts` | cmd/cosift/serve_search.go:121-161 | every peer either adds its list and its candidates or counts as one failure |
| `Fusion.ArrivalOrderIsInvisible` | cmd/cosift/serve_search.go:121-161 | peer arrival order changes no candidate count, no score at any rank and no URL at an untied rank, and a URL shown in one result only is tied with the first one cut |
| `UrlKey.NormalizeUrlKey` | cmd/cosift/census.go:273-311 | the loops compute the specified key, and as host the folded host less one leading "www."; no key exactly without a host |
| `UrlKey.NormalFormIsItsOwnKey` | cmd/cosift/census.go:271-311 | a URL in normal form without a query is its own key |
| `UrlKey.OneParameter` | cmd/cosift/census.go:306-310 | a parameter that is no tracker is written after a question mark, escaped name, equals sign, escaped value |
| `UrlKey.NormalizeQuery` | cmd/cosift/census.go:297-305 | drops exactly the trackers and sorts each value list, in any map order |
| `UrlKey.TrackersLeaveTheKey` | cmd/cosift/census.go:25-28 | a parameter can be added without changing the key if and only if it begins with "utm_" or is one of the seven named trackers |
| `UrlKey.EncodeQuery` | cmd/cosift/census.go:307-309 | writes the parameters by sorted name, each name's values in order |
| `UrlKey.JoinInjective` | cmd/cosift/census.go:307-309 | an encoded query determines its pairs |
| `UrlKey.PairsHoldTheMap` | cmd/cosift/census.go:297-309 | the encoded pairs hold each name's values, in order |
| `UrlKey.PairsAreSorted` | cmd/cosift/census.go:307-309 | the encoded pairs stand in byte order of their names |
| `UrlKey.EncodingDecidesQuery` | cmd/cosift/census.go:297-309 | equal encodings if and only if equal queries up to parameter order and trackers |
| `UrlKey.KeyEqualityIff` | cmd/cosift/census.go:271-311 | for all hosts, IPv6 included: two URLs share a key if and only if they are the same page, or agree on the rest and one without a port of its own has the other's host and port as its host |
| `UrlKey.KeyIsCompleteInvariant` | cmd/cosift/census.go:271-311 | two URLs whose hosts hold no colon share a key if and only if their folded schemes are equal or http and https, their folded hosts are one host but for a leading "www.", their ports equal or both default, their paths one path but for trailing slashes, and their parameters other than trackers equal up to order |
| `UrlKey.Ipv6PortsCollide` | cmd/cosift/census.go:282-286 | every IPv6 address with a port of its own shares its key with another address, a different page |
| `DupCensus.CountPass` | cmd/cosift/census.go:160-170 | the first pass counts every key over the documents visited, and the unparseable ones |
| `DupCensus.CountIsSize` | cmd/cosift/census.go:160-170 | a key's count is the number of documents that hold it |
| `DupCensus.EveryDocumentCounts` | cmd/cosift/census.go:160-170 | the counts and the unparseable add up to the documents visited |
| `DupCensus.CountGroups` | cmd/cosift/census.go:212-218 | groups and their documents, in any map order |
| `DupCensus.PairsAreGroups` | cmd/cosift/census.go:212-218 | a key is a group if and only if two documents hold it |
| `DupCensus.DupPass` | cmd/cosift/census.go:210-258 | the second pass: group totals, per-host repeats, final `seen` counts and samples over the documents visited |
| `DupCensus.Attribute` | cmd/cosift/census.go:226-249 | every member after the first of its group is charged to its host; the first groups to appear are sampled |
| `DupCensus.HostRepeatsAreSize` | cmd/cosift/census.go:226-234 | a host is charged once for each of its documents whose group had a document before |
| `DupCensus.OrderIsByAppearance` | cmd/cosift/census.go:235-242 | sampled groups are listed in the order in which they first appear |
| `DupCensus.UrlsAreInOrder` | cmd/cosift/census.go:235-249 | a group's URLs are those of its documents in the order scanned |
| `DupCensus.CountsAddUp` | cmd/cosift/census.go:212-217 | group counts add up to the documents in those groups |
| `DupCensus.AllButTheFirst` | cmd/cosift/census.go:208-209 | removing what is charged leaves exactly one document of every group |
| `DupCensus.PassesAgree` | cmd/cosift/census.go:160-258 | over one document prefix host counts sum to `Removable`, `seen` ends at the first-pass counts, and twenty groups, or all if fewer, are sampled with their true sizes and three URLs, or all if fewer |
| `DupCensus.Census` | cmd/cosift/census.go:159-258 | both passes together give that agreement |
| `Keys.ParseUndoesBuild` | internal/articles/keys.go:33-95 | the parser undoes every builder, for all 64-bit versions |
| `Keys.BuildUndoesParse` | internal/articles/keys.go:67-95 | rebuilding an accepted key gives back its bytes |
| `Keys.AcceptedKeys` | internal/articles/keys.go:20-95 | the keys accepted, byte by byte: sub-family letters, 26 Crockford base-32 characters, eight version bytes, sixteen hex digits, or anything not empty |
| `Keys.BigEndianOrder` | internal/articles/keys.go:46-48 | byte order of equal-length big-endian numbers is numeric order |
| `Keys.VersionOrder` | internal/articles/keys.go:46-48 | byte order of one article's version keys is numeric order |
| `Keys.RangeIsOneArticle` | internal/articles/keys.go:50-55 | the range holds exactly that article's version keys below the 0xff block, and no other article's or sub-family's |
| `Keys.NegativeVersionEscapes` | internal/articles/keys.go:46-55 | a negative version lands outside its own range |
| `SuffixMatcher.NewSuffixMatcher` | cmd/cosift/purge_domain.go:180-191 | buckets hold exactly the suffixes with their last label, in list order, for long lists only |
| `SuffixMatcher.InBucketConcat` | cmd/cosift/purge_domain.go:180-191 | a bucket lists its suffixes in the order of the whole list |
| `SuffixMatcher.MatchesAnyDomain` | cmd/cosift/serve_helpers.go:141-149 | true exactly when some pattern is the folded host or ends it at a dot |
| `SuffixMatcher.UnderMeans` | cmd/cosift/serve_helpers.go:141-149 | a host matches a pattern when it is the pattern, or some text, a dot and the pattern |
| `SuffixMatcher.BucketIsLastLabel` | cmd/cosift/purge_domain.go:200-205 | both branches name the folded text after the last dot |
| `SuffixMatcher.UnderSharesBucket` | cmd/cosift/purge_domain.go:172-174 | a dot-boundary match forces host and suffix into one bucket |
| `SuffixMatcher.BucketScanIsExact` | cmd/cosift/purge_domain.go:193-205 | scanning one bucket matches if and only if scanning the whole list does, for every host and list |
| `SuffixMatcher.Matches` | cmd/cosift/purge_domain.go:193-198 | the matcher answers as the linear scan |
| `Utf8.CharactersAreEncodings` | cmd/cosift/serve_v1_retrieve.go:238-240 | the well-formed byte sequences of section 4 of RFC 3629 are exactly the encodings that its section 3 gives the code points |
| `Utf8.ValidMeansEncoded` | cmd/cosift/serve_v1_retrieve.go:238-240 | text is valid if and only if it encodes some sequence of code points |
| `Utf8.BoundaryIffRuneStart` | cmd/cosift/serve_v1_retrieve.go:238-240 | in valid text a prefix is valid exactly when the next byte starts a character |
| `Utf8.CutIsLongest` | cmd/cosift/serve_v1_retrieve.go:238-241 | backing up finds the longest valid prefix, at most three bytes short |
| `Utf8.CutUtf8` | cmd/cosift/serve_v1_retrieve.go:234-242 | the longest valid prefix of at most n bytes, and whether anything was cut |
| `Utf8.TrimKeeps` | cmd/cosift/synthesis_context.go:24 | trimming Unicode spaces never breaks a character |
| `Utf8.SpacesAreEncodings` | cmd/cosift/synthesis_context.go:24 | the characters trimmed are exactly the encodings of the code points with the White_Space property |
| `Utf8.TrimEnds` | cmd/cosift/synthesis_context.go:24 | trimming takes white-space characters off both ends and nothing else, and leaves none there |
| `Utf8.SynthesisContext` | cmd/cosift/synthesis_context.go:12-25 | within the share, still valid, and either the text itself or its trimmed longest cut with an ellipsis |
| `Utf8.LimitIsLargestShare` | cmd/cosift/synthesis_context.go:13 | the share is the largest number that is at most 10,000 and that all n sources can have within 30,000 |
| `Utf8.LongTextsFillTheShare` | cmd/cosift/synthesis_context.go:17-24 | a longer valid text is cut at most six bytes short of its share, trimmed, and ended with U+2026 |
| `Utf8.ContextsFitTheBudget` | cmd/cosift/synthesis_context.go:8-13 | n sources take at most 30,000 bytes together and 10,000 each |
| `Text.SortIsCanonical` | cmd/cosift/census.go:303-305 | sorting forgets exactly the order |

## Left out

- HTTP handlers, SSE framing, command-line flags, logging, metrics text, the crawler, the index structures and the stores: only what the components above see of them, as parameters or as steps.
- Floating point: scores, tokens and times are real numbers, so rounding, NaN and infinities are not modelled. The start value of the best MMR score is "no candidate yet".
- Integer overflow of counters, of the census's 32-bit counts and of the cache statistics. Versions in article keys are modelled at 64 bits, with wrap-around.
- `url.Parse`, `QueryEscape`, IP parsing and the FNV-1a hash: the census starts from parsed parts, an injective escape, as percent-encoding of the marks is (`UrlKey.PercentEncodingEscapes`), and an opaque hash; the limiter from an opaque bucket key.
- Lower-casing maps one character to one character, keeps dots and is idempotent, as ASCII folding is (`Text.AsciiIsFolding`).
- AnswerCache: a panicking `fn`, nil caches and the `Stats` snapshot. The class covers the locked sections and a `Do` that need not wait; waiting and interleavings are in the state machine.
- CounterFlush: corrupt stored counters are skipped by the loader and not modelled, and the residue a moderated record leaves counts as no record. Identifiers of new records are never reused.
- Counters: days are numbers, so the formatting of a UTC day and the fact that it sorts as text are not modelled. The clock never runs backwards.
- RateLimiter.SweepingIsInvisible: a request and each per-bucket sweep are atomic, so the gap between `LoadOrStore` and `Lock` (`cmd/cosift/serve_setup.go:1566-1568`), in which a swept bucket can lose a drain, is outside the claim. Buckets are values in a map, so two requests that share a bucket already deleted are not modelled.
- Receipt: approvals and payloads are compared as values, so SHA-256 and JSON encoding are taken as exact; the check of a legacy receipt's indexed content is one environment answer. Nothing is claimed about two different ids with the same content.
- Receipt.NovelIsEarned: a journal that an earlier version left is assumed to hold no novel receipt for an ineligible id and none that its own decision contradicts (`Receipt.RecordOk`).
- Receipt.VerdictPrecedesWrite: the crawler is taken at its contract, to report before it writes and to stop at a recorder's error (`internal/crawler/contribution.go:34-39`, `internal/crawler/crawler.go:1430-1435`). A fetch that finds the content unchanged refreshes the stored document's dates without a verdict (`internal/crawler/crawler.go:1402-1421`); that is not a write in this sense.
- Research: the store is assumed to return a document with the URL asked for, where the text says so (`Research.Faithful`). Retrieval depth, expansion, labels, display excerpts, and the prompt text around the evidence are left out; the semaphore only limits how many sub-queries run at once.
- Fusion.Gather: per-peer latency and the extra metadata of a scattered answer are left out.
- DupCensus.DupPass: `topBuckets` only cuts the per-host counts for printing, so the counts here are whole.
- Keys: slugs and meta names are any non-empty bytes, as the parser takes them; the stricter slug pattern is checked elsewhere.
- Keys.RangeIsOneArticle: speaks of keys that the parser accepts.
- Utf8.TrimKeeps: the space characters are those of the Unicode White_Space property that Go trims.
